/** The durable event log of one agent run and the replay that turns it back into a conversation.

    A run appends one payload at a time; after a restart `_rebuild_conversation` replays them. This module
    states what the replay returns for every log: no call and no outcome is lost, and when the flag is raised. */
module AgentLog {

  /** Tool names the loop treats specially; every other name a model may produce is `Other`. */
  datatype ToolName =
    | UpdatePlan | ReadArtifact | Remember | Forget | Delegate
    | StartCampaign | DispatchInvites | PushInsights
    | ListCampaigns | GetCampaignProgress | GetCampaignInsights | AskFollowup
    | Other(name: string)

  datatype NoticeKind = Usage | Compaction | PlanUpdate | Verification

  datatype DoneKind = Final | Synthesized | BudgetExhausted | UncertainAfterRestart

  datatype Payload =
    | Text(text: string)
    | ToolCall(callId: string, name: ToolName, args: string)
    | ToolResult(callId: string, name: ToolName, result: string)
    | ToolError(callId: string, name: ToolName, message: string, failureCount: nat)
    | ConfirmRequest(confirmationId: nat, callId: string, name: ToolName, args: string)
    | ConfirmationResult(confirmationId: nat, callId: string, name: ToolName, approved: bool)
    | Notice(kind: NoticeKind)
    | Done(text: string, ending: DoneKind)
    | Error(message: string)

  /** A stored payload with its sequence number; an empty `callId` stands for an absent `tool_use_id`. */
  datatype RunEvent = RunEvent(no: nat, payload: Payload)

  datatype Role = System | User | Assistant

  datatype Block =
    | TextBlock(text: string)
    | ToolUse(id: string, name: ToolName, input: string)
    | ResultBlock(toolUseId: string, content: string, isError: bool)

  datatype Content = Plain(text: string) | Blocks(blocks: seq<Block>)

  datatype Message = Message(role: Role, content: Content)

  const MAX_RESULT_CHARS := 4_000

  function Clip(s: string): (r: string)
    ensures r <= s && |r| == if |s| <= MAX_RESULT_CHARS then |s| else MAX_RESULT_CHARS
  {
    if |s| <= MAX_RESULT_CHARS then s else s[..MAX_RESULT_CHARS]
  }

  function Decimal(n: nat): string {
    if n < 10 then [('0' as int + n) as char] else Decimal(n / 10) + [('0' as int + n % 10) as char]
  }

  /** The id a replayed call carries. */
  function CallKey(e: RunEvent): string
    requires e.payload.ToolCall?
  {
    if e.payload.callId != "" then e.payload.callId else "replay_" + Decimal(e.no)
  }

  predicate IsOutcome(p: Payload) { p.ToolResult? || p.ToolError? }

  /** The blocks a logged call and a logged outcome become. */
  function CallBlock(e: RunEvent): Block
    requires e.payload.ToolCall?
  {
    ToolUse(CallKey(e), e.payload.name, e.payload.args)
  }

  function OutcomeBlock(e: RunEvent): Block
    requires IsOutcome(e.payload)
  {
    var id := if e.payload.callId != "" then e.payload.callId else "missing_" + Decimal(e.no);
    match e.payload
    case ToolResult(_, _, result) => ResultBlock(id, Clip(result), false)
    case ToolError(_, _, message, _) => ResultBlock(id, Clip(message), true)
  }

  // ---------------------------------------------------------------- the replay as a fold

  datatype Replay = Replay(convo: seq<Message>, assistant: seq<Block>, results: seq<Block>, pending: set<string>)

  function FlushAssistant(r: Replay): Replay {
    if r.assistant == [] then r
    else r.(convo := r.convo + [Message(Assistant, Blocks(r.assistant))], assistant := [])
  }

  function FlushResults(r: Replay): Replay {
    if r.results == [] then r
    else r.(convo := r.convo + [Message(User, Blocks(r.results))], results := [])
  }

  function Step(r: Replay, e: RunEvent): Replay {
    match e.payload
    case Text(text) =>
      var f := FlushAssistant(FlushResults(r));
      if text == "" then f else f.(assistant := f.assistant + [TextBlock(text)])
    case ToolCall(_, _, _) =>
      r.(pending := r.pending + {CallKey(e)}, assistant := r.assistant + [CallBlock(e)])
    case ToolResult(callId, _, _) =>
      var f := FlushAssistant(r);
      f.(pending := if callId == "" then f.pending else f.pending - {callId}, results := f.results + [OutcomeBlock(e)])
    case ToolError(callId, _, _, _) =>
      var f := FlushAssistant(r);
      f.(pending := if callId == "" then f.pending else f.pending - {callId}, results := f.results + [OutcomeBlock(e)])
    case _ => r
  }

  function Fold(r: Replay, events: seq<RunEvent>): Replay
    decreases |events|
  {
    if events == [] then r else Fold(Step(r, events[0]), events[1..])
  }

  function Start(initial: seq<Message>): Replay { Replay(initial, [], [], {}) }

  function Finish(r: Replay): seq<Message> { FlushResults(FlushAssistant(r)).convo }

  function Rebuilt(initial: seq<Message>, events: seq<RunEvent>): seq<Message> {
    Finish(Fold(Start(initial), events))
  }

  function Uncertain(events: seq<RunEvent>): bool {
    Fold(Start([]), events).pending != {}
  }

  lemma {:induction false} FoldAppend(r: Replay, xs: seq<RunEvent>, ys: seq<RunEvent>)
    ensures Fold(r, xs + ys) == Fold(Fold(r, xs), ys)
    decreases |xs|
  {
    if xs == [] {
      assert xs + ys == ys;
    } else {
      assert (xs + ys)[1..] == xs[1..] + ys;
      FoldAppend(Step(r, xs[0]), xs[1..], ys);
    }
  }

  lemma FoldSnoc(r: Replay, xs: seq<RunEvent>)
    requires xs != []
    ensures Fold(r, xs) == Step(Fold(r, xs[..|xs| - 1]), xs[|xs| - 1])
  {
    var k := |xs| - 1;
    assert xs == xs[..k] + [xs[k]];
    FoldAppend(r, xs[..k], [xs[k]]);
  }

  /** `_rebuild_conversation`: block lists and a pending set updated in place, flushed by role changes. */
  method RebuildConversation(initial: seq<Message>, events: seq<RunEvent>)
        returns (convo: seq<Message>, uncertain: bool)
    ensures convo == Rebuilt(initial, events)
    ensures uncertain == Uncertain(events)
  {
    convo := initial;
    var assistantBlocks: seq<Block> := [];
    var resultBlocks: seq<Block> := [];
    var pendingIds: set<string> := {};
    for i := 0 to |events|
      invariant Replay(convo, assistantBlocks, resultBlocks, pendingIds) == Fold(Start(initial), events[..i])
    {
      var stored := events[i];
      FoldSnoc(Start(initial), events[..i + 1]);
      assert events[..i + 1][..i] == events[..i];
      match stored.payload {
        case Text(text) =>
          if resultBlocks != [] {
            convo := convo + [Message(User, Blocks(resultBlocks))];
            resultBlocks := [];
          }
          if assistantBlocks != [] {
            convo := convo + [Message(Assistant, Blocks(assistantBlocks))];
            assistantBlocks := [];
          }
          if text != "" {
            assistantBlocks := assistantBlocks + [TextBlock(text)];
          }
        case ToolCall(_, name, args) =>
          var callId := CallKey(stored);
          pendingIds := pendingIds + {callId};
          assistantBlocks := assistantBlocks + [ToolUse(callId, name, args)];
        case ToolResult(callId, _, _) =>
          if assistantBlocks != [] {
            convo := convo + [Message(Assistant, Blocks(assistantBlocks))];
            assistantBlocks := [];
          }
          if callId != "" {
            pendingIds := pendingIds - {callId};
          }
          resultBlocks := resultBlocks + [OutcomeBlock(stored)];
        case ToolError(callId, _, _, _) =>
          if assistantBlocks != [] {
            convo := convo + [Message(Assistant, Blocks(assistantBlocks))];
            assistantBlocks := [];
          }
          if callId != "" {
            pendingIds := pendingIds - {callId};
          }
          resultBlocks := resultBlocks + [OutcomeBlock(stored)];
        case _ =>
      }
    }
    assert events[..|events|] == events;
    PendingIgnoresConversation(Start(initial), Start([]), events);
    if assistantBlocks != [] {
      convo := convo + [Message(Assistant, Blocks(assistantBlocks))];
    }
    if resultBlocks != [] {
      convo := convo + [Message(User, Blocks(resultBlocks))];
    }
    uncertain := pendingIds != {};
  }

  lemma {:induction false} PendingIgnoresConversation(r: Replay, r': Replay, events: seq<RunEvent>)
    requires r.pending == r'.pending
    ensures Fold(r, events).pending == Fold(r', events).pending
    decreases |events|
  {
    if events != [] {
      PendingIgnoresConversation(Step(r, events[0]), Step(r', events[0]), events[1..]);
    }
  }

  // ---------------------------------------------------------------- what holds of every log

  /** The outcome at `j` answers the id of the call at `i`. */
  ghost predicate Answers(events: seq<RunEvent>, i: nat, j: nat)
    requires i < |events| && events[i].payload.ToolCall?
  {
    i < j < |events| && IsOutcome(events[j].payload) && events[j].payload.callId == CallKey(events[i])
  }

  /** A logged call with no later outcome for its id. */
  ghost predicate OpenCall(events: seq<RunEvent>, i: nat) {
    i < |events| && events[i].payload.ToolCall? && forall j: nat :: !Answers(events, i, j)
  }

  lemma CallKeyNonEmpty(e: RunEvent)
    requires e.payload.ToolCall?
    ensures CallKey(e) != ""
  {
  }

  /** The pending set holds exactly the ids of the open calls. */
  lemma {:induction false} PendingIsOpen(events: seq<RunEvent>, id: string)
    ensures id in Fold(Start([]), events).pending <==> exists i: nat :: OpenCall(events, i) && CallKey(events[i]) == id
  {
    if events != [] {
      var k := |events| - 1;
      var before := events[..k];
      PendingIsOpen(before, id);
      FoldSnoc(Start([]), events);
      var e := events[k];
      forall i: nat | i < k && events[i].payload.ToolCall?
        ensures OpenCall(events, i) <==> OpenCall(before, i) && !Answers(events, i, k)
      {
        assert forall j: nat | j < k :: Answers(events, i, j) <==> Answers(before, i, j);
        assert forall j: nat | j >= k :: !Answers(before, i, j) && (j > k ==> !Answers(events, i, j));
      }
      if e.payload.ToolCall? {
        assert OpenCall(events, k);
        if id == CallKey(e) {
          assert OpenCall(events, k) && CallKey(events[k]) == id;
        } else if id in Fold(Start([]), before).pending {
          var i: nat :| OpenCall(before, i) && CallKey(before[i]) == id;
          assert OpenCall(events, i) && CallKey(events[i]) == id;
        }
      } else if id in Fold(Start([]), before).pending && !(IsOutcome(e.payload) && e.payload.callId == id) {
        var i: nat :| OpenCall(before, i) && CallKey(before[i]) == id;
        assert OpenCall(events, i) && CallKey(events[i]) == id;
      }
    }
  }

  /** The replay refuses to resume exactly when some logged call has no logged outcome. */
  lemma UncertainIffOpenCall(events: seq<RunEvent>)
    ensures Uncertain(events) <==> exists i: nat :: OpenCall(events, i)
  {
    var pending := Fold(Start([]), events).pending;
    if pending != {} {
      var id :| id in pending;
      PendingIsOpen(events, id);
    }
    if i: nat :| OpenCall(events, i) {
      PendingIsOpen(events, CallKey(events[i]));
    }
  }

  function UsesIn(blocks: seq<Block>): seq<Block> {
    if blocks == [] then [] else
    (if blocks[0].ToolUse? then [blocks[0]] else []) + UsesIn(blocks[1..])
  }

  function ResultsIn(blocks: seq<Block>): seq<Block> {
    if blocks == [] then [] else
    (if blocks[0].ResultBlock? then [blocks[0]] else []) + ResultsIn(blocks[1..])
  }

  function BlocksOf(m: Message): seq<Block> {
    if m.content.Blocks? then m.content.blocks else []
  }

  /** All tool uses, and all results, of a conversation in order. */
  function Uses(msgs: seq<Message>): seq<Block> {
    if msgs == [] then [] else UsesIn(BlocksOf(msgs[0])) + Uses(msgs[1..])
  }

  function Results(msgs: seq<Message>): seq<Block> {
    if msgs == [] then [] else ResultsIn(BlocksOf(msgs[0])) + Results(msgs[1..])
  }

  function CallBlockOf(e: RunEvent): seq<Block> {
    if e.payload.ToolCall? then [CallBlock(e)] else []
  }

  function OutcomeBlockOf(e: RunEvent): seq<Block> {
    if IsOutcome(e.payload) then [OutcomeBlock(e)] else []
  }

  function CallBlocks(events: seq<RunEvent>): seq<Block> {
    if events == [] then [] else
    CallBlockOf(events[0]) + CallBlocks(events[1..])
  }

  function OutcomeBlocks(events: seq<RunEvent>): seq<Block> {
    if events == [] then [] else
    OutcomeBlockOf(events[0]) + OutcomeBlocks(events[1..])
  }

  lemma {:induction false} BlocksAppend(xs: seq<Block>, ys: seq<Block>)
    ensures UsesIn(xs + ys) == UsesIn(xs) + UsesIn(ys)
    ensures ResultsIn(xs + ys) == ResultsIn(xs) + ResultsIn(ys)
    decreases |xs|
  {
    if xs == [] {
      assert xs + ys == ys;
    } else {
      assert (xs + ys)[1..] == xs[1..] + ys;
      BlocksAppend(xs[1..], ys);
      ConcatStep(if xs[0].ToolUse? then [xs[0]] else [], UsesIn(xs[1..]), UsesIn(ys));
      ConcatStep(if xs[0].ResultBlock? then [xs[0]] else [], ResultsIn(xs[1..]), ResultsIn(ys));
    }
  }

  lemma {:induction false} ConversationAppend(xs: seq<Message>, ys: seq<Message>)
    ensures Uses(xs + ys) == Uses(xs) + Uses(ys)
    ensures Results(xs + ys) == Results(xs) + Results(ys)
    decreases |xs|
  {
    hide UsesIn, ResultsIn, BlocksOf;
    if xs == [] {
      assert xs + ys == ys;
    } else {
      assert (xs + ys)[1..] == xs[1..] + ys;
      ConversationAppend(xs[1..], ys);
      var b := BlocksOf(xs[0]);
      assert UsesIn(b) + (Uses(xs[1..]) + Uses(ys)) == (UsesIn(b) + Uses(xs[1..])) + Uses(ys);
      assert ResultsIn(b) + (Results(xs[1..]) + Results(ys)) == (ResultsIn(b) + Results(xs[1..])) + Results(ys);
    }
  }

  lemma UsesOfOne(m: Message)
    ensures Uses([m]) == UsesIn(BlocksOf(m)) && Results([m]) == ResultsIn(BlocksOf(m))
  {
    assert [m][1..] == [];
  }

  /** Uses already in the conversation or waiting in the open assistant message; results likewise. */
  function AllUses(r: Replay): seq<Block> { Uses(r.convo) + UsesIn(r.assistant) }

  function AllResults(r: Replay): seq<Block> { Results(r.convo) + ResultsIn(r.results) }

  ghost predicate Tidy(r: Replay) {
    && (forall b | b in r.assistant :: !b.ResultBlock?)
    && (forall b | b in r.results :: b.ResultBlock?)
  }

  lemma {:induction false} PureLists(xs: seq<Block>)
    ensures (forall b | b in xs :: !b.ResultBlock?) ==> ResultsIn(xs) == []
    ensures (forall b | b in xs :: b.ResultBlock?) ==> UsesIn(xs) == []
  {
    if xs != [] {
      assert xs[0] in xs;
      PureLists(xs[1..]);
    }
  }

  lemma AppendMessage(convo: seq<Message>, role: Role, blocks: seq<Block>)
    ensures Uses(convo + [Message(role, Blocks(blocks))]) == Uses(convo) + UsesIn(blocks)
    ensures Results(convo + [Message(role, Blocks(blocks))]) == Results(convo) + ResultsIn(blocks)
  {
    ConversationAppend(convo, [Message(role, Blocks(blocks))]);
    UsesOfOne(Message(role, Blocks(blocks)));
  }

  lemma ConcatNil<T>(s: seq<T>)
    ensures s + [] == s
  {
  }

  lemma FlushAssistantKeeps(r: Replay)
    requires Tidy(r)
    ensures Tidy(FlushAssistant(r))
    ensures AllUses(FlushAssistant(r)) == AllUses(r) && AllResults(FlushAssistant(r)) == AllResults(r)
  {
    if r.assistant != [] {
      var c := r.convo + [Message(Assistant, Blocks(r.assistant))];
      assert FlushAssistant(r) == Replay(c, [], r.results, r.pending);
      assert Uses(c) == Uses(r.convo) + UsesIn(r.assistant) && Results(c) == Results(r.convo) by {
        AppendMessage(r.convo, Assistant, r.assistant);
        PureLists(r.assistant);
        ConcatNil(Results(r.convo));
      }
      assert UsesIn([]) == [];
      ConcatNil(Uses(c));
    }
  }

  lemma FlushResultsKeeps(r: Replay)
    requires Tidy(r)
    ensures Tidy(FlushResults(r)) && FlushResults(r).assistant == r.assistant
    ensures AllUses(FlushResults(r)) == AllUses(r) && AllResults(FlushResults(r)) == AllResults(r)
  {
    if r.results != [] {
      var c := r.convo + [Message(User, Blocks(r.results))];
      assert FlushResults(r) == Replay(c, r.assistant, [], r.pending);
      assert Results(c) == Results(r.convo) + ResultsIn(r.results) && Uses(c) == Uses(r.convo) by {
        AppendMessage(r.convo, User, r.results);
        PureLists(r.results);
        ConcatNil(Uses(r.convo));
      }
      assert ResultsIn([]) == [];
      ConcatNil(Results(c));
    }
  }

  lemma StepConserves(r: Replay, e: RunEvent)
    requires Tidy(r)
    ensures Tidy(Step(r, e))
    ensures AllUses(Step(r, e)) == AllUses(r) + CallBlockOf(e)
    ensures AllResults(Step(r, e)) == AllResults(r) + OutcomeBlockOf(e)
  {
    match e.payload
    case Text(text) =>
      FlushResultsKeeps(r);
      FlushAssistantKeeps(FlushResults(r));
      var f := FlushAssistant(FlushResults(r));
      BlocksAppend(f.assistant, [TextBlock(text)]);
    case ToolCall(_, _, _) =>
      BlocksAppend(r.assistant, [CallBlock(e)]);
      assert UsesIn([CallBlock(e)]) == [CallBlock(e)];
      assert AllUses(Step(r, e)) == Uses(r.convo) + (UsesIn(r.assistant) + [CallBlock(e)]);
    case ToolResult(_, _, _) => OutcomeConserves(r, e);
    case ToolError(_, _, _, _) => OutcomeConserves(r, e);
    case _ =>
  }

  lemma AddResult(f: Replay, b: Block)
    requires b.ResultBlock?
    ensures AllResults(f.(results := f.results + [b])) == AllResults(f) + [b]
  {
    BlocksAppend(f.results, [b]);
    assert ResultsIn([b]) == [b] + ResultsIn([]);
  }

  lemma OutcomeConserves(r: Replay, e: RunEvent)
    requires Tidy(r) && IsOutcome(e.payload)
    ensures Tidy(Step(r, e)) && AllUses(Step(r, e)) == AllUses(r)
    ensures AllResults(Step(r, e)) == AllResults(r) + [OutcomeBlock(e)]
  {
    FlushAssistantKeeps(r);
    AddResult(FlushAssistant(r), OutcomeBlock(e));
  }

  lemma {:induction false} FoldConserves(r: Replay, events: seq<RunEvent>)
    requires Tidy(r)
    ensures Tidy(Fold(r, events))
    ensures AllUses(Fold(r, events)) == AllUses(r) + CallBlocks(events)
    ensures AllResults(Fold(r, events)) == AllResults(r) + OutcomeBlocks(events)
    decreases |events|
  {
    if events != [] {
      StepConserves(r, events[0]);
      FoldConserves(Step(r, events[0]), events[1..]);
    }
  }

  ghost predicate AllPlain(msgs: seq<Message>) { forall m | m in msgs :: m.content.Plain? }

  lemma {:induction msgs} PlainHasNoBlocks(msgs: seq<Message>)
    requires AllPlain(msgs)
    ensures Uses(msgs) == [] && Results(msgs) == []
  {
  }

  /** Replay conserves the log: the rebuilt conversation holds exactly one tool use per logged call and one
      result per logged outcome, in log order, whatever the log. */
  lemma RebuildConserves(initial: seq<Message>, events: seq<RunEvent>)
    requires AllPlain(initial)
    ensures Uses(Rebuilt(initial, events)) == CallBlocks(events)
    ensures Results(Rebuilt(initial, events)) == OutcomeBlocks(events)
  {
    PlainHasNoBlocks(initial);
    FoldConserves(Start(initial), events);
    FinishConserves(Fold(Start(initial), events));
  }

  lemma FinishConserves(r: Replay)
    requires Tidy(r)
    ensures Uses(Finish(r)) == AllUses(r) && Results(Finish(r)) == AllResults(r)
  {
    FlushAssistantKeeps(r);
    FlushResultsKeeps(FlushAssistant(r));
  }

  /** How many of the first `j` events are outcomes, and how many are calls. */
  function OutcomesAmong(events: seq<RunEvent>, j: nat): nat
    requires j <= |events|
  {
    if j == 0 then 0 else OutcomesAmong(events, j - 1) + if IsOutcome(events[j - 1].payload) then 1 else 0
  }

  function CallsAmong(events: seq<RunEvent>, j: nat): nat
    requires j <= |events|
  {
    if j == 0 then 0 else CallsAmong(events, j - 1) + if events[j - 1].payload.ToolCall? then 1 else 0
  }

  lemma ConcatStep<T>(xs: seq<T>, ys: seq<T>, zs: seq<T>)
    ensures xs + (ys + zs) == xs + ys + zs
  {
  }

  lemma {:induction false} BlocksOfLast(events: seq<RunEvent>)
    requires events != []
    ensures var k := |events| - 1;
            && OutcomeBlocks(events) == OutcomeBlocks(events[..k]) + OutcomeBlockOf(events[k])
            && CallBlocks(events) == CallBlocks(events[..k]) + CallBlockOf(events[k])
  {
    hide OutcomeBlockOf, CallBlockOf;
    var k := |events| - 1;
    if k == 0 {
      assert events[1..] == [] && events[..k] == [];
    } else {
      BlocksOfLast(events[1..]);
      assert events[1..][..k - 1] == events[..k][1..] && events[1..][k - 1] == events[k];
      ConcatStep(OutcomeBlockOf(events[0]), OutcomeBlocks(events[..k][1..]), OutcomeBlockOf(events[k]));
      ConcatStep(CallBlockOf(events[0]), CallBlocks(events[..k][1..]), CallBlockOf(events[k]));
    }
  }

  lemma {:induction false} AmongPrefix(events: seq<RunEvent>, k: nat, j: nat)
    requires j <= k <= |events|
    ensures OutcomesAmong(events[..k], j) == OutcomesAmong(events, j) && CallsAmong(events[..k], j) == CallsAmong(events, j)
  {
    if j > 0 {
      AmongPrefix(events, k, j - 1);
    }
  }

  lemma {:induction false} BlocksAre(events: seq<RunEvent>)
    ensures |OutcomeBlocks(events)| == OutcomesAmong(events, |events|)
    ensures |CallBlocks(events)| == CallsAmong(events, |events|)
    ensures forall j: nat | j < |events| && IsOutcome(events[j].payload) ::
              OutcomesAmong(events, j) < |OutcomeBlocks(events)|
              && OutcomeBlocks(events)[OutcomesAmong(events, j)] == OutcomeBlock(events[j])
    ensures forall j: nat | j < |events| && events[j].payload.ToolCall? ::
              CallsAmong(events, j) < |CallBlocks(events)|
              && CallBlocks(events)[CallsAmong(events, j)] == CallBlock(events[j])
    decreases |events|
  {
    hide OutcomeBlock, CallBlock;
    if events != [] {
      var k := |events| - 1;
      BlocksAre(events[..k]);
      BlocksOfLast(events);
      AmongPrefix(events, k, k);
      forall j: nat | j < k
        ensures OutcomesAmong(events[..k], j) == OutcomesAmong(events, j) && CallsAmong(events[..k], j) == CallsAmong(events, j)
      {
        AmongPrefix(events, k, j);
      }
    }
  }

  /** What a logged outcome says. */
  function Said(p: Payload): string
    requires IsOutcome(p)
  {
    if p.ToolResult? then p.result else p.message
  }

  /** For every log: the n-th result of the rebuilt conversation is the n-th logged outcome - its first 4000
      characters, or all there are, marked as an error exactly if it was one - and the n-th tool use is the n-th logged
      call with its name and arguments. */
  lemma RebuiltShows(initial: seq<Message>, events: seq<RunEvent>, j: nat)
    requires AllPlain(initial) && j < |events|
    ensures var p := events[j].payload;
            && (IsOutcome(p) ==>
                  var n, results := OutcomesAmong(events, j), Results(Rebuilt(initial, events));
                  && n < |results| == OutcomesAmong(events, |events|) && results[n].ResultBlock?
                  && results[n].content == (if |Said(p)| <= 4_000 then Said(p) else Said(p)[..4_000])
                  && results[n].isError == p.ToolError? && (p.callId != "" ==> results[n].toolUseId == p.callId))
            && (p.ToolCall? ==>
                  var n, uses := CallsAmong(events, j), Uses(Rebuilt(initial, events));
                  && n < |uses| == CallsAmong(events, |events|) && uses[n].ToolUse?
                  && uses[n].name == p.name && uses[n].input == p.args && (p.callId != "" ==> uses[n].id == p.callId))
  {
    hide Rebuilt, Uses, Results;
    RebuildConserves(initial, events);
    BlocksAre(events);
  }

  /** So a resumed model sees an outcome for every call it ever made. */
  lemma ResumedModelSeesEveryOutcome(initial: seq<Message>, events: seq<RunEvent>, i: nat)
    requires AllPlain(initial) && !Uncertain(events)
    requires i < |events| && events[i].payload.ToolCall?
    ensures exists b :: b in Results(Rebuilt(initial, events)) && b.ResultBlock? && b.toolUseId == CallKey(events[i])
  {
    UncertainIffOpenCall(events);
    assert !OpenCall(events, i);
    var j: nat :| Answers(events, i, j);
    CallKeyNonEmpty(events[i]);
    RebuildConserves(initial, events);
    OutcomeIsKept(events, j);
    assert OutcomeBlock(events[j]).toolUseId == CallKey(events[i]);
  }

  lemma {:induction false} OutcomeIsKept(events: seq<RunEvent>, j: nat)
    requires j < |events| && IsOutcome(events[j].payload)
    ensures OutcomeBlock(events[j]) in OutcomeBlocks(events)
    decreases |events|
  {
    if j > 0 {
      assert events[1..][j - 1] == events[j];
      OutcomeIsKept(events[1..], j - 1);
    }
  }
}
