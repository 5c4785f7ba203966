/** The tool-calling loop of the orchestrator agent.

    The model, the tools, the human and the summariser are oracles: a `Script` fixes what each of them
    answers, and nothing is assumed about the answers. Everything the loop itself decides is modelled. */
module ChatLoop {
  import opened AgentLog

  /** Outward-facing tools, which need a human's confirmation. */
  predicate Gated(name: ToolName) { name.StartCampaign? || name.DispatchInvites? || name.PushInsights? }

  predicate BuiltIn(name: ToolName) {
    name.UpdatePlan? || name.ReadArtifact? || name.Remember? || name.Forget? || name.Delegate?
  }

  predicate DelegateSafe(name: ToolName) {
    name.ListCampaigns? || name.GetCampaignProgress? || name.GetCampaignInsights? || name.AskFollowup? || name.ReadArtifact?
  }

  const MAX_CONSECUTIVE_FAILURES := 3
  const RECENT := 4
  const DELEGATE_TURNS := 4

  // ---------------------------------------------------------------- what the outside world answers

  datatype Outcome = Success(result: string) | Failure(message: string)

  /** The human's verdict, the tool's outcome and how the outcome is rendered for the model. */
  datatype CallOracle = CallOracle(confirmationId: nat, approved: bool, outcome: Outcome, verified: bool, rendered: string)

  /** A call the model asks for, with what the world will answer to it. */
  datatype Call = Call(id: string, name: ToolName, args: string, oracle: CallOracle)

  datatype Reply = LlmFails(message: string) | Says(text: string, usage: bool, calls: seq<Call>)

  /** `Fits`: below the size limit; otherwise the summariser's answer, if any. */
  datatype Compaction = Fits | NoSummary | Summary(text: string)

  datatype Scene = Scene(compaction: Compaction, reply: Reply)

  /** What every turn is answered; its length is the turn budget. */
  type Script = seq<Scene>

  /** The wording of the loop's own messages is immaterial. */
  datatype Wording = Wording(
    denied: string, disabled: string, unknownTool: string, noArtifacts: string, noMemory: string, noNesting: string,
    badDelegation: string, summaryPrefix: string, memoryPrefix: string, plan: string, budget: string, limit: string)

  datatype Config = Config(
    handlers: set<ToolName>, canConfirm: bool, hasArtifacts: bool, hasMemory: bool, allowDelegate: bool, wording: Wording)

  // ---------------------------------------------------------------- one turn

  datatype Gate = Open | NoStore | Asked(confirmationId: nat, approved: bool)

  predicate Allowed(g: Gate) { g.Open? || (g.Asked? && g.approved) }

  datatype CallRecord = CallRecord(
    id: string, name: ToolName, args: string, gate: Gate, outcome: Outcome, invoked: bool,
    rendered: string, verified: bool)

  /** `failures` are the failure counts at the start of the turn. */
  datatype Turn = Turn(text: string, usage: bool, failures: map<ToolName, nat>, records: seq<CallRecord>)

  function GateFor(cfg: Config, call: Call): Gate {
    if !Gated(call.name) then Open
    else if !cfg.canConfirm then NoStore
    else Asked(call.oracle.confirmationId, call.oracle.approved)
  }

  /** `_execute_tool`: the outcome, and whether a built-in or a handler actually ran. Note the order: the
      built-ins are dispatched before the failure limit is looked at. */
  function Execute(cfg: Config, name: ToolName, failureCount: nat, outcome: Outcome): (r: (Outcome, bool)) {
    match name
    case UpdatePlan => (outcome, true)
    case ReadArtifact => if cfg.hasArtifacts then (outcome, true) else (Failure(cfg.wording.noArtifacts), false)
    case Remember => if cfg.hasMemory then (outcome, true) else (Failure(cfg.wording.noMemory), false)
    case Forget => if cfg.hasMemory then (outcome, true) else (Failure(cfg.wording.noMemory), false)
    case Delegate => if cfg.allowDelegate then (outcome, true) else (Failure(cfg.wording.noNesting), false)
    case _ =>
      if failureCount >= MAX_CONSECUTIVE_FAILURES then (Failure(cfg.wording.disabled), false)
      else if name !in cfg.handlers then (Failure(cfg.wording.unknownTool), false)
      else (outcome, true)
  }

  function CountOf(failures: map<ToolName, nat>, name: ToolName): nat {
    if name in failures then failures[name] else 0
  }

  function CallId(turnIndex: nat, index: nat, call: Call): (id: string)
    ensures id != ""
  {
    if call.id != "" then call.id else "tool_" + Decimal(turnIndex + 1) + "_" + Decimal(index + 1)
  }

  function Outcome1(cfg: Config, failures: map<ToolName, nat>, call: Call): (Outcome, bool) {
    if Allowed(GateFor(cfg, call)) then Execute(cfg, call.name, CountOf(failures, call.name), call.oracle.outcome)
    else (Failure(cfg.wording.denied), false)
  }

  /** Failure counts move as the outcomes are reported, in call order; the calls themselves all ran against
      the counts of the turn's start. */
  function CountReport(failures: map<ToolName, nat>, name: ToolName, outcome: Outcome): map<ToolName, nat> {
    failures[name := if outcome.Failure? then CountOf(failures, name) + 1 else 0]
  }

  function Record(cfg: Config, turnIndex: nat, index: nat, before: map<ToolName, nat>, call: Call): CallRecord {
    var (outcome, invoked) := Outcome1(cfg, before, call);
    CallRecord(CallId(turnIndex, index, call), call.name, call.args, GateFor(cfg, call), outcome, invoked,
               call.oracle.rendered, call.oracle.verified)
  }

  function Records(cfg: Config, turnIndex: nat, before: map<ToolName, nat>, calls: seq<Call>): (r: seq<CallRecord>)
    ensures |r| == |calls|
  {
    seq(|calls|, i requires 0 <= i < |calls| => Record(cfg, turnIndex, i, before, calls[i]))
  }

  function CountAll(failures: map<ToolName, nat>, records: seq<CallRecord>): map<ToolName, nat>
    decreases |records|
  {
    if records == [] then failures
    else CountAll(CountReport(failures, records[0].name, records[0].outcome), records[1..])
  }

  // ---------------------------------------------------------------- the events and messages of a turn

  function Announce(r: CallRecord): seq<Payload> {
    (if r.gate.Asked? then
       [ConfirmRequest(r.gate.confirmationId, r.id, r.name, r.args),
        ConfirmationResult(r.gate.confirmationId, r.id, r.name, r.gate.approved)]
     else []) +
    (if Allowed(r.gate) then [ToolCall(r.id, r.name, r.args)] else [])
  }

  /** `failures` is the failing tool's count after this outcome. */
  function Report(r: CallRecord, failures: nat): seq<Payload> {
    match r.outcome
    case Failure(message) => [ToolError(r.id, r.name, message, failures)]
    case Success(result) =>
      (if r.name == UpdatePlan then [Notice(PlanUpdate)] else []) +
      [ToolResult(r.id, r.name, result)] +
      (if r.verified then [Notice(Verification)] else [])
  }

  function AnnounceAll(rs: seq<CallRecord>): seq<Payload> {
    if rs == [] then [] else Announce(rs[0]) + AnnounceAll(rs[1..])
  }

  function ReportAll(failures: map<ToolName, nat>, rs: seq<CallRecord>): seq<Payload>
    decreases |rs|
  {
    if rs == [] then [] else
    var f := CountReport(failures, rs[0].name, rs[0].outcome);
    Report(rs[0], CountOf(f, rs[0].name)) + ReportAll(f, rs[1..])
  }

  function Opening(text: string, usage: bool): seq<Payload> {
    (if usage then [Notice(Usage)] else []) + (if text != "" then [Text(text)] else [])
  }

  function EmitTurn(t: Turn): seq<Payload> {
    Opening(t.text, t.usage) + AnnounceAll(t.records) + ReportAll(t.failures, t.records)
  }

  /** The live conversation keeps what was rendered for the model; the log keeps the raw result. */
  datatype View = Live | Logged

  function UseBlock(r: CallRecord): Block { ToolUse(r.id, r.name, r.args) }

  function ReportBlock(r: CallRecord, v: View): Block {
    match r.outcome
    case Failure(message) => ResultBlock(r.id, if v.Live? then message else Clip(message), true)
    case Success(result) => ResultBlock(r.id, if v.Live? then r.rendered else Clip(result), false)
  }

  function UseBlocks(rs: seq<CallRecord>): (b: seq<Block>)
    ensures |b| == |rs|
  {
    seq(|rs|, i requires 0 <= i < |rs| => UseBlock(rs[i]))
  }

  function ReportBlocks(rs: seq<CallRecord>, v: View): (b: seq<Block>)
    ensures |b| == |rs|
  {
    seq(|rs|, i requires 0 <= i < |rs| => ReportBlock(rs[i], v))
  }

  function TextBlocks(text: string): seq<Block> { if text != "" then [TextBlock(text)] else [] }

  function TurnMessages(t: Turn, v: View): seq<Message> {
    [Message(Assistant, Blocks(TextBlocks(t.text) + UseBlocks(t.records))),
     Message(User, Blocks(ReportBlocks(t.records, v)))]
  }

  // ---------------------------------------------------------------- a whole run of the driver

  predicate IsToolTurn(s: Scene) { s.reply.Says? && s.reply.calls != [] }

  /** The first `k` scenes all ask for tools. */
  ghost predicate ToolTurns(script: Script, k: nat) {
    k <= |script| && forall i | 0 <= i < k :: IsToolTurn(script[i])
  }

  function CallsOf(s: Scene): seq<Call> { if s.reply.Says? then s.reply.calls else [] }

  function PlayTurn(cfg: Config, turnIndex: nat, failures: map<ToolName, nat>, s: Scene): Turn {
    Turn(if s.reply.Says? then s.reply.text else "", s.reply.Says? && s.reply.usage, failures,
         Records(cfg, turnIndex, failures, CallsOf(s)))
  }

  function FailuresBefore(cfg: Config, script: Script, k: nat): map<ToolName, nat>
    requires k <= |script|
  {
    if k == 0 then map[] else
    var earlier := FailuresBefore(cfg, script, k - 1);
    CountAll(earlier, PlayTurn(cfg, k - 1, earlier, script[k - 1]).records)
  }

  /** The `k`-th turn of a run. */
  function TurnAt(cfg: Config, script: Script, k: nat): Turn
    requires k < |script|
  {
    PlayTurn(cfg, k, FailuresBefore(cfg, script, k), script[k])
  }

  function PlainUser(text: string): Message { Message(User, Plain(text)) }

  function SummaryMessage(cfg: Config, text: string): Message { PlainUser(cfg.wording.summaryPrefix + text) }

  predicate Compacts(convo: seq<Message>, c: Compaction) {
    c.Summary? && c.text != "" && |convo| > RECENT
  }

  /** `_compact_context`, applied when the context is too long. */
  function Compact(cfg: Config, convo: seq<Message>, c: Compaction): seq<Message> {
    if Compacts(convo, c) then [SummaryMessage(cfg, c.text)] + convo[|convo| - RECENT..] else convo
  }

  function ConvoBefore(cfg: Config, start: seq<Message>, script: Script, k: nat): seq<Message>
    requires k <= |script|
  {
    if k == 0 then start
    else
      var compacted := Compact(cfg, ConvoBefore(cfg, start, script, k - 1), script[k - 1].compaction);
      compacted + TurnMessages(TurnAt(cfg, script, k - 1), Live)
  }

  function CompactionEvents(cfg: Config, start: seq<Message>, script: Script, k: nat): seq<Payload>
    requires k < |script|
  {
    if Compacts(ConvoBefore(cfg, start, script, k), script[k].compaction) then [Notice(NoticeKind.Compaction)] else []
  }

  function EventsBefore(cfg: Config, start: seq<Message>, script: Script, k: nat): seq<Payload>
    requires k <= |script|
  {
    if k == 0 then []
    else
      var before := EventsBefore(cfg, start, script, k - 1);
      before + CompactionEvents(cfg, start, script, k - 1) + EmitTurn(TurnAt(cfg, script, k - 1))
  }

  /** The events that end a run after `k` tool turns. */
  function ClosingEvents(cfg: Config, start: seq<Message>, script: Script, k: nat, synthesis: Reply): seq<Payload>
    requires k <= |script|
  {
    if k < |script| then
      CompactionEvents(cfg, start, script, k) +
      match script[k].reply {
        case LlmFails(message) => [Error(message)]
        case Says(text, usage, _) => Opening(text, usage) + [Done(text, Final)]
      }
    else SynthesisEvents(cfg, synthesis)
  }

  function SynthesisEvents(cfg: Config, synthesis: Reply): seq<Payload> {
    if synthesis.Says? then
      Opening(synthesis.text, synthesis.usage) +
      (if synthesis.text != "" then [Done(synthesis.text, Synthesized)] else [Done(cfg.wording.limit, BudgetExhausted)])
    else [Done(cfg.wording.limit, BudgetExhausted)]
  }

  function StartMessages(cfg: Config, messages: seq<Message>, memories: string): seq<Message> {
    if memories == "" then messages else messages + [PlainUser(cfg.wording.memoryPrefix + memories)]
  }

  // ---------------------------------------------------------------- tool pairing

  function UseIdsIn(bs: seq<Block>): seq<string> {
    if bs == [] then [] else (if bs[0].ToolUse? then [bs[0].id] else []) + UseIdsIn(bs[1..])
  }

  function ResultIdsIn(bs: seq<Block>): seq<string> {
    if bs == [] then [] else (if bs[0].ResultBlock? then [bs[0].toolUseId] else []) + ResultIdsIn(bs[1..])
  }

  function UseIds(m: Message): seq<string> { UseIdsIn(BlocksOf(m)) }

  function ResultIds(m: Message): seq<string> { ResultIdsIn(BlocksOf(m)) }

  ghost predicate IsPair(a: Message, u: Message) {
    && a.role == Assistant && u.role == User
    && UseIds(a) != [] && UseIds(a) == ResultIds(u)
    && ResultIds(a) == [] && UseIds(u) == []
    && forall b | b in BlocksOf(u) :: b.ResultBlock?
  }

  ghost predicate IsLone(m: Message) { UseIds(m) == [] && ResultIds(m) == [] }

  ghost predicate PairAt(msgs: seq<Message>, i: nat) {
    i + 1 < |msgs| && IsPair(msgs[i], msgs[i + 1])
  }

  ghost predicate Seated(msgs: seq<Message>, i: nat)
    requires i < |msgs|
  {
    && (UseIds(msgs[i]) != [] ==> PairAt(msgs, i))
    && (ResultIds(msgs[i]) != [] ==> i > 0 && PairAt(msgs, i - 1))
  }

  /** Every assistant message with tool uses is at once followed by results with the same ids in the same
      order, and no result stands anywhere else. */
  ghost predicate Paired(msgs: seq<Message>) {
    forall i: nat | i < |msgs| :: Seated(msgs, i)
  }

  lemma LoneAtEnd(msgs: seq<Message>, m: Message)
    requires m.content.Plain?
    ensures Paired(msgs) ==> Paired(msgs + [m])
  {
    if Paired(msgs) {
      var r := msgs + [m];
      assert UseIdsIn([]) == [] && ResultIdsIn([]) == [];
      forall i: nat | i < |r| ensures Seated(r, i) {
        if i < |msgs| {
          assert Seated(msgs, i);
          assert r[i] == msgs[i] && (PairAt(msgs, i) ==> PairAt(r, i)) && (i > 0 && PairAt(msgs, i - 1) ==> PairAt(r, i - 1));
        }
      }
    }
  }

  /** Compaction keeps the pairing exactly when the first of the four retained messages is not a result
      message: a property of the conversation that can be looked up before compacting. */
  lemma CompactionKeepsPairingIff(cfg: Config, convo: seq<Message>, c: Compaction)
    requires Paired(convo) && Compacts(convo, c)
    ensures Paired(Compact(cfg, convo, c)) <==> ResultIds(convo[|convo| - RECENT]) == []
  {
    var cut := |convo| - RECENT;
    var r := Compact(cfg, convo, c);
    assert UseIdsIn([]) == [] && ResultIdsIn([]) == [];
    assert forall i: nat | 1 <= i < |r| :: r[i] == convo[i - 1 + cut];
    assert !PairAt(r, 0);
    if ResultIds(convo[cut]) == [] {
      forall i: nat | i < |r| ensures Seated(r, i) {
        if i > 0 {
          assert Seated(convo, i - 1 + cut);
          assert PairAt(convo, i - 1 + cut) ==> PairAt(r, i);
          assert i > 1 && PairAt(convo, i - 2 + cut) ==> PairAt(r, i - 1);
        }
      }
    } else {
      assert !Seated(r, 1);
    }
  }

  /** A conversation whose tool traffic is one block of pairs at its end: `plain` messages, then pairs. */
  ghost predicate PlainThenPairs(msgs: seq<Message>, plain: nat) {
    && plain <= |msgs| && (|msgs| - plain) % 2 == 0
    && (forall i: nat | i < plain :: IsLone(msgs[i]))
    && (forall i: nat | plain <= i < |msgs| && (i - plain) % 2 == 0 :: PairAt(msgs, i))
  }

  lemma PlainThenPairsIsPaired(msgs: seq<Message>, plain: nat)
    requires PlainThenPairs(msgs, plain)
    ensures Paired(msgs)
  {
    forall i: nat | i < |msgs| ensures Seated(msgs, i) {
      if i < plain {
        assert IsLone(msgs[i]);
      } else if (i - plain) % 2 == 0 {
        assert PairAt(msgs, i);
      } else {
        assert PairAt(msgs, i - 1);
      }
    }
  }

  /** In that shape the four retained messages never begin inside a pair, and the shape survives. */
  lemma CompactKeepsShape(cfg: Config, msgs: seq<Message>, plain: nat, c: Compaction) returns (plain': nat)
    requires PlainThenPairs(msgs, plain)
    ensures PlainThenPairs(Compact(cfg, msgs, c), plain')
  {
    if !Compacts(msgs, c) {
      plain' := plain;
    } else {
      var cut := |msgs| - RECENT;
      var r := Compact(cfg, msgs, c);
      assert UseIdsIn([]) == [] && ResultIdsIn([]) == [];
      assert forall i: nat | 1 <= i < |r| :: r[i] == msgs[i - 1 + cut];
      plain' := if plain <= cut then 1 else plain - cut + 1;
      forall i: nat | plain' <= i < |r| && (i - plain') % 2 == 0 ensures PairAt(r, i) {
        assert PairAt(msgs, i - 1 + cut);
      }
    }
  }

  lemma {:induction false} ReportIds(rs: seq<CallRecord>, v: View)
    ensures UseIdsIn(UseBlocks(rs)) == ResultIdsIn(ReportBlocks(rs, v))
    ensures |UseIdsIn(UseBlocks(rs))| == |rs|
    ensures ResultIdsIn(UseBlocks(rs)) == [] && UseIdsIn(ReportBlocks(rs, v)) == []
  {
    if rs != [] {
      ReportIds(rs[1..], v);
      assert UseBlocks(rs)[1..] == UseBlocks(rs[1..]);
      assert ReportBlocks(rs, v)[1..] == ReportBlocks(rs[1..], v);
    }
  }

  /** What a turn adds to the conversation is a pair: one result per call, same ids, same order - denied,
      disabled, unknown and failing calls included. */
  lemma TurnIsPair(t: Turn, v: View)
    requires t.records != []
    ensures IsPair(TurnMessages(t, v)[0], TurnMessages(t, v)[1])
  {
    ReportIds(t.records, v);
    var uses := UseBlocks(t.records);
    if t.text != "" {
      assert ([TextBlock(t.text)] + uses)[1..] == uses;
    } else {
      assert [] + uses == uses;
    }
  }

  lemma AppendPair(msgs: seq<Message>, plain: nat, a: Message, u: Message)
    requires PlainThenPairs(msgs, plain) && IsPair(a, u)
    ensures PlainThenPairs(msgs + [a, u], plain)
  {
    var r := msgs + [a, u];
    forall i: nat | plain <= i < |r| && (i - plain) % 2 == 0 ensures PairAt(r, i) {
      if i < |msgs| {
        assert PairAt(msgs, i);
        assert r[i] == msgs[i] && r[i + 1] == msgs[i + 1];
      } else {
        assert i == |msgs|;
      }
    }
  }

  /** Every conversation a fresh run builds keeps the pairing, through any number of compactions. */
  lemma {:induction false} FreshRunStaysPaired(cfg: Config, start: seq<Message>, script: Script, k: nat)
      returns (plain: nat)
    requires ToolTurns(script, k) && forall m | m in start :: IsLone(m)
    ensures PlainThenPairs(ConvoBefore(cfg, start, script, k), plain)
    ensures Paired(ConvoBefore(cfg, start, script, k))
    ensures k < |script| ==> Paired(Compact(cfg, ConvoBefore(cfg, start, script, k), script[k].compaction))
  {
    if k == 0 {
      plain := |start|;
    } else {
      var p := FreshRunStaysPaired(cfg, start, script, k - 1);
      var p' := CompactKeepsShape(cfg, ConvoBefore(cfg, start, script, k - 1), p, script[k - 1].compaction);
      var t := TurnAt(cfg, script, k - 1);
      assert IsToolTurn(script[k - 1]);
      TurnIsPair(t, Live);
      AppendPair(Compact(cfg, ConvoBefore(cfg, start, script, k - 1), script[k - 1].compaction), p',
                 TurnMessages(t, Live)[0], TurnMessages(t, Live)[1]);
      plain := p';
    }
    PlainThenPairsIsPaired(ConvoBefore(cfg, start, script, k), plain);
    if k < |script| {
      var q := CompactKeepsShape(cfg, ConvoBefore(cfg, start, script, k), plain, script[k].compaction);
      PlainThenPairsIsPaired(Compact(cfg, ConvoBefore(cfg, start, script, k), script[k].compaction), q);
    }
  }

  // ---------------------------------------------------------------- the loop

  predicate UpdatesPlan(r: CallRecord) { r.name == UpdatePlan && r.outcome.Success? }

  predicate AnyUpdatesPlan(rs: seq<CallRecord>) {
    rs != [] && (UpdatesPlan(rs[0]) || AnyUpdatesPlan(rs[1..]))
  }

  predicate PlannedBefore(cfg: Config, script: Script, k: nat)
    requires k <= |script|
  {
    k > 0 && (PlannedBefore(cfg, script, k - 1) || AnyUpdatesPlan(TurnAt(cfg, script, k - 1).records))
  }

  /** What the model is shown in turn `k`, and, once the budget is used up, for the synthesis. */
  function SentAt(cfg: Config, start: seq<Message>, script: Script, k: nat): seq<Message>
    requires k <= |script|
  {
    var convo := ConvoBefore(cfg, start, script, k);
    if k == |script| then convo + [PlainUser(cfg.wording.budget)]
    else
      var compacted := Compact(cfg, convo, script[k].compaction);
      if PlannedBefore(cfg, script, k) then compacted + [PlainUser(cfg.wording.plan)] else compacted
  }

  /** Every conversation a fresh run sends to the model keeps the pairing: whatever the tools do and however
      often the context is compacted. */
  lemma FreshRunSendsPaired(cfg: Config, messages: seq<Message>, memories: string, script: Script, k: nat)
    requires ToolTurns(script, k) && forall m | m in messages :: IsLone(m)
    ensures Paired(SentAt(cfg, StartMessages(cfg, messages, memories), script, k))
  {
    var start := StartMessages(cfg, messages, memories);
    assert UseIdsIn([]) == [] && ResultIdsIn([]) == [];
    var _ := FreshRunStaysPaired(cfg, start, script, k);
    var convo := ConvoBefore(cfg, start, script, k);
    if k == |script| {
      LoneAtEnd(convo, PlainUser(cfg.wording.budget));
    } else {
      var c := Compact(cfg, convo, script[k].compaction);
      LoneAtEnd(c, PlainUser(cfg.wording.plan));
    }
  }

  /** Two messages that tell the model of a turn: its text, each of its calls, and to each call, in the same place,
      what the tool's rendered result or the error was. */
  ghost predicate Tells(a: Message, u: Message, text: string, calls: seq<Call>, rs: seq<CallRecord>) {
    && a.role == Assistant && u.role == User && a.content.Blocks? && u.content.Blocks? && |rs| == |calls|
    && var head := if text != "" then 1 else 0;
       var uses, results := a.content.blocks, u.content.blocks;
       && |uses| == head + |calls| && |results| == |calls| && (text != "" ==> uses[0] == TextBlock(text))
       && forall i | 0 <= i < |calls| ::
            && (calls[i].id != "" ==> rs[i].id == calls[i].id)
            && uses[head + i] == ToolUse(rs[i].id, calls[i].name, calls[i].args)
            && (rs[i].outcome.Success? ==> results[i] == ResultBlock(rs[i].id, calls[i].oracle.rendered, false))
            && (rs[i].outcome.Failure? ==> results[i] == ResultBlock(rs[i].id, rs[i].outcome.message, true))
  }

  lemma TurnTells(cfg: Config, turnIndex: nat, failures: map<ToolName, nat>, s: Scene)
    requires IsToolTurn(s)
    ensures var t := PlayTurn(cfg, turnIndex, failures, s);
            && |TurnMessages(t, Live)| == 2
            && Tells(TurnMessages(t, Live)[0], TurnMessages(t, Live)[1], s.reply.text, s.reply.calls, t.records)
  {
    hide Outcome1;
  }

  lemma CompactKeepsLast(cfg: Config, convo: seq<Message>, c: Compaction)
    requires |convo| >= 2
    ensures var r := Compact(cfg, convo, c); |r| >= 2 && r[|r| - 2..] == convo[|convo| - 2..]
  {
    var r := Compact(cfg, convo, c);
    assert r[|r| - 2] == convo[|convo| - 2] && r[|r| - 1] == convo[|convo| - 1];
  }

  /** Whatever is compacted, the very next request to the model tells it of the whole turn. */
  lemma EveryTurnIsShown(cfg: Config, start: seq<Message>, script: Script, k: nat) returns (p: nat)
    requires k < |script| && IsToolTurn(script[k])
    ensures var sent := SentAt(cfg, start, script, k + 1);
            && p + 1 < |sent| && sent[p..p + 2] == TurnMessages(TurnAt(cfg, script, k), Live)
            && Tells(sent[p], sent[p + 1], script[k].reply.text, script[k].reply.calls, TurnAt(cfg, script, k).records)
  {
    hide Tells, PlayTurn, TurnMessages, PlannedBefore, Compact;
    TurnTells(cfg, k, FailuresBefore(cfg, script, k), script[k]);
    var added := TurnMessages(TurnAt(cfg, script, k), Live);
    var convo := ConvoBefore(cfg, start, script, k + 1);
    assert convo[|convo| - 2..] == added;
    var shown := if k + 1 < |script| then Compact(cfg, convo, script[k + 1].compaction) else convo;
    if k + 1 < |script| {
      CompactKeepsLast(cfg, convo, script[k + 1].compaction);
    }
    p := |shown| - 2;
    assert SentAt(cfg, start, script, k + 1)[..|shown|] == shown;
  }

  /** The plan is shown again in every turn behind one that has updated it successfully, and in no other. */
  lemma PlanIsShownIff(cfg: Config, start: seq<Message>, script: Script, k: nat)
    requires k < |script|
    ensures var shown := Compact(cfg, ConvoBefore(cfg, start, script, k), script[k].compaction);
            SentAt(cfg, start, script, k)
            == if exists j: nat, i: nat :: j < k && UpdatedPlan(cfg, script, j, i) then shown + [PlainUser(cfg.wording.plan)]
               else shown
  {
    PlannedIff(cfg, script, k);
  }

  /** The `i`-th call of the `j`-th turn has updated the plan. */
  predicate UpdatedPlan(cfg: Config, script: Script, j: nat, i: nat)
    requires j < |script|
  {
    var rs := TurnAt(cfg, script, j).records;
    i < |rs| && rs[i].name == UpdatePlan && rs[i].outcome.Success?
  }

  lemma {:induction false} AnyUpdatesPlanIff(rs: seq<CallRecord>)
    ensures AnyUpdatesPlan(rs) <==> exists i :: 0 <= i < |rs| && rs[i].name == UpdatePlan && rs[i].outcome.Success?
  {
    if rs != [] {
      AnyUpdatesPlanIff(rs[1..]);
      assert forall i | 1 <= i < |rs| :: rs[i] == rs[1..][i - 1];
    }
  }

  lemma {:induction false} PlannedIff(cfg: Config, script: Script, k: nat)
    requires k <= |script|
    ensures PlannedBefore(cfg, script, k) <==> exists j: nat, i: nat :: j < k && UpdatedPlan(cfg, script, j, i)
  {
    hide TurnAt, AnyUpdatesPlan;
    if k > 0 {
      PlannedIff(cfg, script, k - 1);
      AnyUpdatesPlanIff(TurnAt(cfg, script, k - 1).records);
      if AnyUpdatesPlan(TurnAt(cfg, script, k - 1).records) {
        var rs := TurnAt(cfg, script, k - 1).records;
        var i :| 0 <= i < |rs| && rs[i].name == UpdatePlan && rs[i].outcome.Success?;
        assert UpdatedPlan(cfg, script, k - 1, i);
      }
      if j: nat, i: nat :| j < k && UpdatedPlan(cfg, script, j, i) && j == k - 1 {
        assert AnyUpdatesPlan(TurnAt(cfg, script, k - 1).records);
      }
    }
  }

  /** The recurrences of a run, in one place. */
  lemma Recurrences(cfg: Config, start: seq<Message>, script: Script, k: nat)
    requires k < |script|
    ensures var t := PlayTurn(cfg, k, FailuresBefore(cfg, script, k), script[k]);
            && ConvoBefore(cfg, start, script, k + 1)
                   == Compact(cfg, ConvoBefore(cfg, start, script, k), script[k].compaction) + TurnMessages(t, Live)
            && EventsBefore(cfg, start, script, k + 1)
                   == EventsBefore(cfg, start, script, k) + CompactionEvents(cfg, start, script, k) + EmitTurn(t)
            && FailuresBefore(cfg, script, k + 1) == CountAll(FailuresBefore(cfg, script, k), t.records)
            && PlannedBefore(cfg, script, k + 1) == (PlannedBefore(cfg, script, k) || AnyUpdatesPlan(t.records))
  {
  }

  lemma AtStart(cfg: Config, start: seq<Message>, script: Script)
    ensures ConvoBefore(cfg, start, script, 0) == start && EventsBefore(cfg, start, script, 0) == []
    ensures FailuresBefore(cfg, script, 0) == map[] && !PlannedBefore(cfg, script, 0)
  {
  }

  /** `chat`. Events are listed in the order they are yielded, `sent` collects the conversations handed to the
      model. The scripted compaction verdict replaces the character count. */
  method Chat(cfg: Config, messages: seq<Message>, memories: string, script: Script, synthesis: Reply)
      returns (events: seq<Payload>, turns: nat, sent: seq<seq<Message>>)
    ensures ToolTurns(script, turns) && (turns < |script| ==> !IsToolTurn(script[turns]))
    ensures var start := StartMessages(cfg, messages, memories);
            && events == EventsBefore(cfg, start, script, turns) + ClosingEvents(cfg, start, script, turns, synthesis)
            && |sent| == turns + 1 && forall i | 0 <= i <= turns :: sent[i] == SentAt(cfg, start, script, i)
  {
    hide EmitTurn, PlayTurn, TurnMessages, CountAll, AnyUpdatesPlan, Opening, SynthesisEvents, EventsBefore,
      ConvoBefore, FailuresBefore, PlannedBefore;
    var convo := messages;
    if memories != "" {
      convo := convo + [PlainUser(cfg.wording.memoryPrefix + memories)];
    }
    ghost var start := convo;
    var failureCounts: map<ToolName, nat> := map[];
    var planned := false;
    events, sent, turns := [], [], 0;
    AtStart(cfg, start, script);
    while turns < |script|
      invariant turns <= |script| && ToolTurns(script, turns) && |sent| == turns
      invariant convo == ConvoBefore(cfg, start, script, turns)
      invariant events == EventsBefore(cfg, start, script, turns)
      invariant failureCounts == FailuresBefore(cfg, script, turns) && planned == PlannedBefore(cfg, script, turns)
      invariant forall i | 0 <= i < turns :: sent[i] == SentAt(cfg, start, script, i)
    {
      var scene := script[turns];
      var noted: seq<Payload> := [];
      if Compacts(convo, scene.compaction) {
        convo := [SummaryMessage(cfg, scene.compaction.text)] + convo[|convo| - RECENT..];
        noted := [Notice(NoticeKind.Compaction)];
      }
      assert noted == CompactionEvents(cfg, start, script, turns);
      var modelMessages := convo;
      if planned {
        modelMessages := modelMessages + [PlainUser(cfg.wording.plan)];
      }
      assert modelMessages == SentAt(cfg, start, script, turns);
      sent := sent + [modelMessages];
      if !IsToolTurn(scene) {
        var last := LastReply(scene.reply);
        events := events + (noted + last);
        return;
      }
      Recurrences(cfg, start, script, turns);
      var turnEvents, added, plannedNow;
      turnEvents, added, failureCounts, plannedNow := PlayScene(cfg, turns, failureCounts, scene);
      planned := planned || plannedNow;
      events := events + noted + turnEvents;
      convo := convo + added;
      turns := turns + 1;
    }
    sent := sent + [convo + [PlainUser(cfg.wording.budget)]];
    var last := Synthesize(cfg, synthesis);
    events := events + last;
  }

  method LastReply(reply: Reply) returns (events: seq<Payload>)
    requires reply.Says? ==> reply.calls == []
    ensures events == match reply
                      case LlmFails(message) => [Error(message)]
                      case Says(text, usage, _) => Opening(text, usage) + [Done(text, Final)]
  {
    match reply {
      case LlmFails(message) =>
        events := [Error(message)];
      case Says(text, usage, _) =>
        events := Open1(text, usage);
        events := events + [Done(text, Final)];
    }
  }

  method Open1(text: string, usage: bool) returns (events: seq<Payload>)
    ensures events == Opening(text, usage)
  {
    events := [];
    if usage {
      events := events + [Notice(Usage)];
    }
    if text != "" {
      events := events + [Text(text)];
    }
  }

  method Synthesize(cfg: Config, synthesis: Reply) returns (events: seq<Payload>)
    ensures events == SynthesisEvents(cfg, synthesis)
  {
    events := [];
    if synthesis.Says? {
      events := Open1(synthesis.text, synthesis.usage);
      if synthesis.text != "" {
        events := events + [Done(synthesis.text, Synthesized)];
        return;
      }
    }
    events := events + [Done(cfg.wording.limit, BudgetExhausted)];
  }

  /** One tool turn: its events, and the two messages it adds. */
  method PlayScene(cfg: Config, turnIndex: nat, failures: map<ToolName, nat>, scene: Scene)
      returns (events: seq<Payload>, added: seq<Message>, failures': map<ToolName, nat>, planned: bool)
    requires IsToolTurn(scene)
    ensures events == EmitTurn(PlayTurn(cfg, turnIndex, failures, scene))
    ensures added == TurnMessages(PlayTurn(cfg, turnIndex, failures, scene), Live)
    ensures failures' == CountAll(failures, PlayTurn(cfg, turnIndex, failures, scene).records)
    ensures planned == AnyUpdatesPlan(PlayTurn(cfg, turnIndex, failures, scene).records)
  {
    hide AnnounceAll, ReportAll, CountAll, AnyUpdatesPlan, UseBlocks, ReportBlocks, Opening, TextBlocks, Record;
    var head := Open1(scene.reply.text, scene.reply.usage);
    var turnEvents, records;
    turnEvents, records, failures', planned := RunCalls(cfg, turnIndex, failures, scene.reply.calls);
    events := head + turnEvents;
    added := [Message(Assistant, Blocks(TextBlocks(scene.reply.text) + UseBlocks(records))),
              Message(User, Blocks(ReportBlocks(records, Live)))];
  }

  /** The tool part of one turn: announce every call, run the allowed ones, report the outcomes. */
  method RunCalls(cfg: Config, turnIndex: nat, failures: map<ToolName, nat>, calls: seq<Call>)
      returns (events: seq<Payload>, records: seq<CallRecord>, failures': map<ToolName, nat>, planned: bool)
    ensures records == Records(cfg, turnIndex, failures, calls)
    ensures events == AnnounceAll(records) + ReportAll(failures, records)
    ensures failures' == CountAll(failures, records)
    ensures planned == AnyUpdatesPlan(records)
  {
    hide AnnounceAll, ReportAll, CountAll, AnyUpdatesPlan, GateFor, CallId, Outcome1;
    ghost var rs := Records(cfg, turnIndex, failures, calls);
    var announced, approved := AnnounceCalls(cfg, turnIndex, calls, rs);
    var outcomes := GatherOutcomes(cfg, failures, calls, approved);
    records := [];
    for i := 0 to |calls|
      invariant records == rs[..i]
    {
      records := records + [CallRecord(CallId(turnIndex, i, calls[i]), calls[i].name, calls[i].args, GateFor(cfg, calls[i]),
                                       outcomes[i].0, outcomes[i].1, calls[i].oracle.rendered, calls[i].oracle.verified)];
    }
    var reported;
    reported, failures', planned := ReportCalls(failures, records);
    events := announced + reported;
  }

  /** The gate of one call: a confirmation for a gated call, and a `tool_call` event before anything runs. */
  method AnnounceCall(cfg: Config, callId: string, call: Call, ghost r: CallRecord)
        returns (events: seq<Payload>, allowed: bool)
    requires r.id == callId && r.name == call.name && r.args == call.args && r.gate == GateFor(cfg, call)
    ensures events == Announce(r) && allowed == Allowed(r.gate)
  {
    events, allowed := [], true;
    if Gated(call.name) {
      if !cfg.canConfirm {
        allowed := false;
      } else {
        events := events + [ConfirmRequest(call.oracle.confirmationId, callId, call.name, call.args)];
        allowed := call.oracle.approved;
        events := events + [ConfirmationResult(call.oracle.confirmationId, callId, call.name, allowed)];
      }
    }
    if allowed {
      events := events + [ToolCall(callId, call.name, call.args)];
    }
  }

  method AnnounceCalls(cfg: Config, turnIndex: nat, calls: seq<Call>, ghost rs: seq<CallRecord>)
      returns (events: seq<Payload>, approved: seq<bool>)
    requires |calls| == |rs|
    requires forall i | 0 <= i < |rs| :: rs[i].id == CallId(turnIndex, i, calls[i]) && rs[i].name == calls[i].name
                                         && rs[i].args == calls[i].args && rs[i].gate == GateFor(cfg, calls[i])
    ensures events == AnnounceAll(rs)
    ensures |approved| == |calls| && forall i | 0 <= i < |calls| :: approved[i] == Allowed(rs[i].gate)
  {
    hide Announce, Allowed, GateFor, CallId;
    events, approved := [], [];
    assert rs[0..] == rs;
    for i := 0 to |calls|
      invariant events + AnnounceAll(rs[i..]) == AnnounceAll(rs)
      invariant |approved| == i && forall j | 0 <= j < i :: approved[j] == Allowed(rs[j].gate)
    {
      var added, allowed := AnnounceCall(cfg, CallId(turnIndex, i, calls[i]), calls[i], rs[i]);
      approved := approved + [allowed];
      assert rs[i..][0] == rs[i] && rs[i..][1..] == rs[i + 1..];
      ConcatStep(events, added, AnnounceAll(rs[i + 1..]));
      events := events + added;
    }
  }

  /** The concurrent execution: every allowed call runs against the failure counts of the turn's start. */
  method GatherOutcomes(cfg: Config, failures: map<ToolName, nat>, calls: seq<Call>, approved: seq<bool>)
      returns (outcomes: seq<(Outcome, bool)>)
    requires |calls| == |approved|
    requires forall i | 0 <= i < |calls| :: approved[i] == Allowed(GateFor(cfg, calls[i]))
    ensures |outcomes| == |calls|
    ensures forall i | 0 <= i < |calls| :: outcomes[i] == Outcome1(cfg, failures, calls[i])
  {
    outcomes := [];
    for i := 0 to |calls|
      invariant |outcomes| == i
      invariant forall j | 0 <= j < i :: outcomes[j] == Outcome1(cfg, failures, calls[j])
    {
      if approved[i] {
        outcomes := outcomes + [Execute(cfg, calls[i].name, CountOf(failures, calls[i].name), calls[i].oracle.outcome)];
      } else {
        outcomes := outcomes + [(Failure(cfg.wording.denied), false)];
      }
    }
  }

  /** One outcome: the failure count, and the plan, result and verification events. */
  method ReportCall(before: map<ToolName, nat>, r: CallRecord)
        returns (events: seq<Payload>, failures: map<ToolName, nat>)
    ensures failures == CountReport(before, r.name, r.outcome)
    ensures events == Report(r, CountOf(failures, r.name))
  {
    match r.outcome {
      case Failure(message) =>
        failures := before[r.name := CountOf(before, r.name) + 1];
        events := [ToolError(r.id, r.name, message, failures[r.name])];
      case Success(result) =>
        failures := before[r.name := 0];
        events := if r.name == UpdatePlan then [Notice(PlanUpdate)] else [];
        events := events + [ToolResult(r.id, r.name, result)];
        if r.verified {
          events := events + [Notice(Verification)];
        }
    }
  }

  /** The result loop, in call order. */
  method ReportCalls(before: map<ToolName, nat>, rs: seq<CallRecord>)
      returns (events: seq<Payload>, failures: map<ToolName, nat>, planned: bool)
    ensures events == ReportAll(before, rs)
    ensures failures == CountAll(before, rs)
    ensures planned == AnyUpdatesPlan(rs)
  {
    events, failures, planned := [], before, false;
    assert rs[0..] == rs;
    for i := 0 to |rs|
      invariant events + ReportAll(failures, rs[i..]) == ReportAll(before, rs)
      invariant CountAll(failures, rs[i..]) == CountAll(before, rs)
      invariant (planned || AnyUpdatesPlan(rs[i..])) == AnyUpdatesPlan(rs)
    {
      var added;
      assert rs[i..][0] == rs[i] && rs[i..][1..] == rs[i + 1..];
      added, failures := ReportCall(failures, rs[i]);
      planned := planned || UpdatesPlan(rs[i]);
      ConcatStep(events, added, ReportAll(failures, rs[i + 1..]));
      events := events + added;
    }
  }

  // ---------------------------------------------------------------- the failure limit

  /** When the built-in or handler of a call really runs: exactly when the gate lets it through and the
      dispatch reaches it. For a handler tool that includes fewer than three consecutive failures. */
  lemma InvokedIff(cfg: Config, turnIndex: nat, failures: map<ToolName, nat>, s: Scene, r: CallRecord)
    requires r in PlayTurn(cfg, turnIndex, failures, s).records && !BuiltIn(r.name)
    ensures r.invoked <==>
            && Allowed(r.gate) && r.name in cfg.handlers
            && CountOf(failures, r.name) < MAX_CONSECUTIVE_FAILURES
    ensures !r.invoked ==> r.outcome.Failure?
  {
    var rs := PlayTurn(cfg, turnIndex, failures, s).records;
    var i :| 0 <= i < |rs| && rs[i] == r;
  }

  lemma {:induction false} FailingTurnKeepsCount(failures: map<ToolName, nat>, records: seq<CallRecord>, name: ToolName)
    requires forall r | r in records && r.name == name :: r.outcome.Failure?
    ensures CountOf(CountAll(failures, records), name) >= CountOf(failures, name)
    decreases |records|
  {
    if records != [] {
      assert records[0] in records;
      FailingTurnKeepsCount(CountReport(failures, records[0].name, records[0].outcome), records[1..], name);
    }
  }

  /** A handler tool that stands at three consecutive failures at a turn boundary is never run again. */
  lemma {:induction false} DisabledForGood(cfg: Config, script: Script, k: nat, j: nat, name: ToolName)
    requires k <= j < |script| && !BuiltIn(name)
    requires CountOf(FailuresBefore(cfg, script, k), name) >= MAX_CONSECUTIVE_FAILURES
    ensures CountOf(FailuresBefore(cfg, script, j), name) >= MAX_CONSECUTIVE_FAILURES
    ensures forall r | r in TurnAt(cfg, script, j).records && r.name == name :: !r.invoked && r.outcome.Failure?
    decreases j
  {
    if j > k {
      DisabledForGood(cfg, script, k, j - 1, name);
      FailingTurnKeepsCount(FailuresBefore(cfg, script, j - 1), TurnAt(cfg, script, j - 1).records, name);
    }
    DisabledTurn(cfg, j, FailuresBefore(cfg, script, j), script[j], name);
  }

  lemma DisabledTurn(cfg: Config, turnIndex: nat, failures: map<ToolName, nat>, s: Scene, name: ToolName)
    requires !BuiltIn(name) && CountOf(failures, name) >= MAX_CONSECUTIVE_FAILURES
    ensures forall r | r in PlayTurn(cfg, turnIndex, failures, s).records && r.name == name :: !r.invoked && r.outcome.Failure?
  {
    forall r | r in PlayTurn(cfg, turnIndex, failures, s).records && r.name == name ensures !r.invoked && r.outcome.Failure? {
      InvokedIff(cfg, turnIndex, failures, s, r);
    }
  }

  /** What a tool was reported to have done, in order: within one turn, and in the turns before the `k`-th. */
  function OutcomesOf(records: seq<CallRecord>, name: ToolName): seq<Outcome> {
    if records == [] then []
    else (if records[0].name == name then [records[0].outcome] else []) + OutcomesOf(records[1..], name)
  }

  function OutcomesBefore(cfg: Config, script: Script, k: nat, name: ToolName): seq<Outcome>
    requires k <= |script|
  {
    if k == 0 then []
    else OutcomesBefore(cfg, script, k - 1, name) + OutcomesOf(TurnAt(cfg, script, k - 1).records, name)
  }

  /** The length of the run of failures at the end. */
  function FailureRun(outcomes: seq<Outcome>): (n: nat)
    ensures n <= |outcomes| && forall i | |outcomes| - n <= i < |outcomes| :: outcomes[i].Failure?
    ensures n < |outcomes| ==> outcomes[|outcomes| - n - 1].Success?
  {
    if outcomes == [] || outcomes[|outcomes| - 1].Success? then 0 else 1 + FailureRun(outcomes[..|outcomes| - 1])
  }

  lemma OneMoreOutcome(earlier: seq<Outcome>, o: Outcome)
    ensures FailureRun(earlier + [o]) == if o.Failure? then FailureRun(earlier) + 1 else 0
  {
    assert (earlier + [o])[..|earlier|] == earlier;
  }

  lemma OutcomesStep(records: seq<CallRecord>, name: ToolName, earlier: seq<Outcome>)
    requires records != []
    ensures var now := if records[0].name == name then earlier + [records[0].outcome] else earlier;
            earlier + OutcomesOf(records, name) == now + OutcomesOf(records[1..], name)
  {
  }

  lemma {:induction false} CountAllIs(failures: map<ToolName, nat>, records: seq<CallRecord>, name: ToolName,
                                      earlier: seq<Outcome>)
    requires CountOf(failures, name) == FailureRun(earlier)
    ensures CountOf(CountAll(failures, records), name) == FailureRun(earlier + OutcomesOf(records, name))
    decreases |records|
  {
    hide FailureRun;
    if records == [] {
      assert earlier + [] == earlier;
    } else {
      var r := records[0];
      OneMoreOutcome(earlier, r.outcome);
      OutcomesStep(records, name, earlier);
      CountAllIs(CountReport(failures, r.name, r.outcome), records[1..], name,
                 if r.name == name then earlier + [r.outcome] else earlier);
    }
  }

  /** A tool's count before a turn is the number of failures since its last success, in whatever turns they were. */
  lemma {:induction false} CountIsFailureRun(cfg: Config, script: Script, k: nat, name: ToolName)
    requires k <= |script|
    ensures CountOf(FailuresBefore(cfg, script, k), name) == FailureRun(OutcomesBefore(cfg, script, k, name))
  {
    hide PlayTurn, CountAll;
    if k > 0 {
      CountIsFailureRun(cfg, script, k - 1, name);
      CountAllIs(FailuresBefore(cfg, script, k - 1), TurnAt(cfg, script, k - 1).records, name,
                 OutcomesBefore(cfg, script, k - 1, name));
    }
  }

  /** The last three outcomes there are, all failures. */
  predicate LastThreeFailed(outcomes: seq<Outcome>) {
    |outcomes| >= 3 && forall i | |outcomes| - 3 <= i < |outcomes| :: outcomes[i].Failure?
  }

  /** In any turn of any run: a call that passes its gate and has a handler is refused as disabled if and only if the
      tool's last three reported outcomes were failures; otherwise the handler runs, and its outcome is reported. */
  lemma DisabledIffThreeInARow(cfg: Config, script: Script, k: nat, i: nat)
    requires k < |script| && i < |CallsOf(script[k])| && !BuiltIn(CallsOf(script[k])[i].name)
    requires Allowed(GateFor(cfg, CallsOf(script[k])[i])) && CallsOf(script[k])[i].name in cfg.handlers
    ensures var call, r := CallsOf(script[k])[i], TurnAt(cfg, script, k).records[i];
            && r.name == call.name
            && (!r.invoked <==> LastThreeFailed(OutcomesBefore(cfg, script, k, call.name)))
            && r.outcome == if r.invoked then call.oracle.outcome else Failure(cfg.wording.disabled)
  {
    CountIsFailureRun(cfg, script, k, CallsOf(script[k])[i].name);
  }

  /** An outward-facing call runs exactly when a human can be asked and has approved, its handler exists, and the last
      three outcomes of its tool were not all failures - a refusal counts as one. */
  lemma OutwardRunsIff(cfg: Config, script: Script, k: nat, i: nat)
    requires k < |script| && i < |CallsOf(script[k])|
    requires CallsOf(script[k])[i].name in {StartCampaign, DispatchInvites, PushInsights}
    ensures var call, r := CallsOf(script[k])[i], TurnAt(cfg, script, k).records[i];
            && (r.invoked <==>
                  && cfg.canConfirm && call.oracle.approved && call.name in cfg.handlers
                  && !LastThreeFailed(OutcomesBefore(cfg, script, k, call.name)))
            && (!r.invoked ==> r.outcome.Failure?)
  {
    hide FailuresBefore, OutcomesBefore, CallId;
    var call := CallsOf(script[k])[i];
    CountIsFailureRun(cfg, script, k, call.name);
  }

  lemma {:induction false} ReportAllAt(failures: map<ToolName, nat>, records: seq<CallRecord>, i: nat, p: Payload)
    requires i < |records|
    requires p in Report(records[i], CountOf(CountAll(failures, records[..i + 1]), records[i].name))
    ensures p in ReportAll(failures, records)
    decreases i
  {
    hide Report;
    var f := CountReport(failures, records[0].name, records[0].outcome);
    assert records[..i + 1][0] == records[0] && records[..i + 1][1..] == records[1..][..i];
    if i > 0 {
      ReportAllAt(f, records[1..], i - 1, p);
    }
  }

  /** A failure is reported with the number of failures in a row that it makes, its own turn's included. */
  lemma ErrorSaysHowOften(cfg: Config, script: Script, k: nat, i: nat)
    requires k < |script| && i < |TurnAt(cfg, script, k).records|
    ensures var rs := TurnAt(cfg, script, k).records;
            var sofar := OutcomesBefore(cfg, script, k, rs[i].name) + OutcomesOf(rs[..i + 1], rs[i].name);
            rs[i].outcome.Failure? ==>
              ToolError(rs[i].id, rs[i].name, rs[i].outcome.message, FailureRun(sofar)) in EmitTurn(TurnAt(cfg, script, k))
  {
    var t := TurnAt(cfg, script, k);
    var rs, r := t.records, t.records[i];
    CountIsFailureRun(cfg, script, k, r.name);
    CountAllIs(t.failures, rs[..i + 1], r.name, OutcomesBefore(cfg, script, k, r.name));
    if r.outcome.Failure? {
      var count := CountOf(CountAll(t.failures, rs[..i + 1]), r.name);
      ReportAllAt(t.failures, rs, i, ToolError(r.id, r.name, r.outcome.message, count));
    }
  }

  /** Whether the store or permission that a built-in needs is there. */
  predicate Available(cfg: Config, name: ToolName)
    requires BuiltIn(name)
  {
    match name
    case UpdatePlan => true
    case ReadArtifact => cfg.hasArtifacts
    case Delegate => cfg.allowDelegate
    case _ => cfg.hasMemory
  }

  /** The built-ins are outside that rule: in every turn of every run, whatever has failed before, a call to one
      runs exactly when the store or permission it needs is there, and yields what the tool yields. */
  lemma BuiltinsAreNeverDisabled(cfg: Config, script: Script, k: nat, i: nat)
    requires k < |script| && i < |CallsOf(script[k])| && BuiltIn(CallsOf(script[k])[i].name)
    ensures var call, r := CallsOf(script[k])[i], TurnAt(cfg, script, k).records[i];
            && r.name == call.name && (r.invoked <==> Available(cfg, call.name))
            && (r.invoked ==> r.outcome == call.oracle.outcome)
  {
  }

  /** A run in which the model does nothing but update its plan, and every update is refused. */
  function BadPlans(n: nat, message: string): Script {
    seq(n, _ => Scene(Fits, Says("", false, [Call("", UpdatePlan, "", CallOracle(0, false, Failure(message), false, ""))])))
  }

  /** However often it has failed in a row, the next call runs all the same. */
  lemma {:induction false} FailedBuiltinRunsAgain(cfg: Config, n: nat, k: nat, message: string)
    requires k <= n
    ensures CountOf(FailuresBefore(cfg, BadPlans(n + 1, message), k), UpdatePlan) == k
    ensures TurnAt(cfg, BadPlans(n + 1, message), k).records[0].invoked
  {
    var script := BadPlans(n + 1, message);
    if k > 0 {
      FailedBuiltinRunsAgain(cfg, n, k - 1, message);
      var rs := TurnAt(cfg, script, k - 1).records;
      var earlier := FailuresBefore(cfg, script, k - 1);
      assert rs[1..] == [];
      assert CountAll(earlier, rs) == CountReport(earlier, UpdatePlan, Failure(message));
    }
    BuiltinsAreNeverDisabled(cfg, script, k, 0);
  }

  // ---------------------------------------------------------------- delegation

  /** The subagent of `_delegate`: only allow-listed handlers, no confirmation store, no memory, no nesting. */
  function SubagentConfig(cfg: Config, requested: set<ToolName>): Config {
    Config(requested * cfg.handlers, false, cfg.hasArtifacts, false, false, cfg.wording)
  }

  /** `_delegate` once the text it was given is known to be acceptable. */
  method Delegate(cfg: Config, task: string, requested: set<ToolName>, script: Script, synthesis: Reply)
      returns (outcome: Outcome, toolsUsed: seq<ToolName>)
    requires |script| == DELEGATE_TURNS
    ensures outcome.Success? ==> cfg.allowDelegate && requested != {} && forall n | n in requested :: DelegateSafe(n)
    ensures outcome.Success? ==> toolsUsed == CalledNames(SubagentEvents(cfg, task, requested, script, synthesis))
    ensures forall name | name in toolsUsed :: !Gated(name)
    ensures outcome.Failure? ==> toolsUsed == []
  {
    toolsUsed := [];
    if !cfg.allowDelegate {
      return Failure(cfg.wording.noNesting), [];
    }
    if task == "" || |task| > 2_000 {
      return Failure(cfg.wording.badDelegation), [];
    }
    if requested == {} || !(forall n | n in requested :: DelegateSafe(n)) {
      return Failure(cfg.wording.badDelegation), [];
    }
    var available := requested * cfg.handlers;
    if ReadArtifact in requested && cfg.hasArtifacts {
      available := available + {ReadArtifact};
    }
    if available == {} {
      return Failure(cfg.wording.badDelegation), [];
    }
    var sub := SubagentConfig(cfg, requested);
    var start := [Message(User, Plain(task))];
    var events, turns, _ := Chat(sub, start, "", script, synthesis);
    TurnsTakenIs(script, turns);
    SubagentNeverAnnouncesGated(sub, start, script, turns);
    ClosingHasNoCall(sub, start, script, turns, synthesis);
    assert forall p | p in events && p.ToolCall? :: !Gated(p.name);
    var summary;
    summary, toolsUsed := Watch(events);
    NamesAreCalled(events);
    outcome := Success(summary);
  }

  /** Follows the subagent's events: the tools it calls, and the text it ends with. */
  method Watch(events: seq<Payload>) returns (summary: string, toolsUsed: seq<ToolName>)
    ensures toolsUsed == CalledNames(events)
  {
    summary, toolsUsed := "", [];
    for i := 0 to |events|
      invariant toolsUsed == CalledNames(events[..i])
    {
      var event := events[i];
      assert events[..i + 1][..i] == events[..i];
      if event.ToolCall? {
        toolsUsed := toolsUsed + [event.name];
      }
      if event.Done? {
        summary := event.text;
      } else if event.Error? {
        summary := event.message;
      }
    }
    assert events[..|events|] == events;
  }

  lemma {:induction false} NamesAreCalled(events: seq<Payload>)
    ensures forall name | name in CalledNames(events) :: exists p :: p in events && p.ToolCall? && p.name == name
  {
    if events != [] {
      var n := |events| - 1;
      NamesAreCalled(events[..n]);
      assert events[n] in events && forall p | p in events[..n] :: p in events;
    }
  }

  /** The tools named by the `tool_call` events, in order. */
  function CalledNames(events: seq<Payload>): seq<ToolName> {
    if events == [] then []
    else CalledNames(events[..|events| - 1]) + if events[|events| - 1].ToolCall? then [events[|events| - 1].name] else []
  }

  /** The tool turns of a run: those before the first reply without calls. */
  function TurnsTaken(script: Script): (n: nat)
    ensures n <= |script|
  {
    if script == [] || !IsToolTurn(script[0]) then 0 else 1 + TurnsTaken(script[1..])
  }

  lemma {:induction false} TurnsTakenIs(script: Script, n: nat)
    requires ToolTurns(script, n) && (n < |script| ==> !IsToolTurn(script[n]))
    ensures TurnsTaken(script) == n
    decreases n
  {
    if n > 0 {
      TurnsTakenIs(script[1..], n - 1);
    }
  }

  /** All that the subagent of a delegation yields. */
  function SubagentEvents(cfg: Config, task: string, requested: set<ToolName>, script: Script, synthesis: Reply): seq<Payload> {
    var sub, start, k := SubagentConfig(cfg, requested), [Message(User, Plain(task))], TurnsTaken(script);
    EventsBefore(sub, start, script, k) + ClosingEvents(sub, start, script, k, synthesis)
  }

  /** What a subagent runs: allow-listed handlers that were asked for and exist, and of the built-ins only its own
      plan and the reading of artifacts. */
  lemma SubagentRunsAllowListed(cfg: Config, requested: set<ToolName>, script: Script, k: nat, r: CallRecord)
    requires k < |script| && r in TurnAt(SubagentConfig(cfg, requested), script, k).records && r.invoked
    requires forall n | n in requested :: DelegateSafe(n)
    ensures if BuiltIn(r.name) then r.name.UpdatePlan? || (r.name.ReadArtifact? && cfg.hasArtifacts)
            else r.name in requested * cfg.handlers * {ListCampaigns, GetCampaignProgress, GetCampaignInsights, AskFollowup}
  {
    var rs := TurnAt(SubagentConfig(cfg, requested), script, k).records;
    var i :| 0 <= i < |rs| && rs[i] == r;
  }

  lemma ClosingHasNoCall(cfg: Config, start: seq<Message>, script: Script, k: nat, synthesis: Reply)
    requires k <= |script|
    ensures forall p | p in ClosingEvents(cfg, start, script, k, synthesis) :: !p.ToolCall?
  {
  }

  lemma {:induction false} AnnouncedAreAllowed(rs: seq<CallRecord>, p: Payload)
    requires p in AnnounceAll(rs) && p.ToolCall?
    ensures exists r :: r in rs && Allowed(r.gate) && p == ToolCall(r.id, r.name, r.args)
  {
    if p in Announce(rs[0]) {
      assert rs[0] in rs;
    } else {
      AnnouncedAreAllowed(rs[1..], p);
    }
  }

  lemma {:induction false} ReportsAreOutcomes(failures: map<ToolName, nat>, rs: seq<CallRecord>, p: Payload)
    requires p in ReportAll(failures, rs)
    ensures !p.ToolCall?
    decreases |rs|
  {
    var f := CountReport(failures, rs[0].name, rs[0].outcome);
    if p !in Report(rs[0], CountOf(f, rs[0].name)) {
      ReportsAreOutcomes(f, rs[1..], p);
    }
  }

  ghost predicate NoGatedCall(events: seq<Payload>) {
    forall p | p in events && p.ToolCall? :: !Gated(p.name)
  }

  lemma NoGatedCallConcat(xs: seq<Payload>, ys: seq<Payload>, zs: seq<Payload>)
    requires NoGatedCall(xs) && NoGatedCall(ys) && NoGatedCall(zs)
    ensures NoGatedCall(xs + ys + zs)
  {
  }

  lemma SubagentTurn(cfg: Config, turnIndex: nat, failures: map<ToolName, nat>, s: Scene)
    requires !cfg.canConfirm
    ensures forall r | r in PlayTurn(cfg, turnIndex, failures, s).records && Gated(r.name) ::
              !r.invoked && r.outcome == Failure(cfg.wording.denied)
    ensures NoGatedCall(EmitTurn(PlayTurn(cfg, turnIndex, failures, s)))
  {
    var t := PlayTurn(cfg, turnIndex, failures, s);
    forall r | r in t.records && Gated(r.name)
      ensures !r.invoked && !Allowed(r.gate) && r.outcome == Failure(cfg.wording.denied)
    {
      var i :| 0 <= i < |t.records| && t.records[i] == r;
    }
    forall p | p in EmitTurn(t) && p.ToolCall? ensures !Gated(p.name) {
      if p in AnnounceAll(t.records) {
        AnnouncedAreAllowed(t.records, p);
      } else {
        assert p in ReportAll(t.failures, t.records);
        ReportsAreOutcomes(t.failures, t.records, p);
      }
    }
  }

  /** A delegated subagent neither announces nor runs a gated tool, whatever its model asks for. */
  lemma {:induction false} SubagentNeverAnnouncesGated(cfg: Config, start: seq<Message>, script: Script, k: nat)
    requires k <= |script| && !cfg.canConfirm
    ensures NoGatedCall(EventsBefore(cfg, start, script, k))
  {
    hide EmitTurn, PlayTurn, Compacts, ConvoBefore;
    if k > 0 {
      SubagentNeverAnnouncesGated(cfg, start, script, k - 1);
      SubagentTurn(cfg, k - 1, FailuresBefore(cfg, script, k - 1), script[k - 1]);
      var c := CompactionEvents(cfg, start, script, k - 1);
      assert NoGatedCall(c);
      NoGatedCallConcat(EventsBefore(cfg, start, script, k - 1), c, EmitTurn(TurnAt(cfg, script, k - 1)));
    }
  }

  lemma SubagentNeverRunsGated(cfg: Config, script: Script, k: nat, r: CallRecord)
    requires k < |script| && !cfg.canConfirm && r in TurnAt(cfg, script, k).records && Gated(r.name)
    ensures !r.invoked && r.outcome == Failure(cfg.wording.denied)
  {
    SubagentTurn(cfg, k, FailuresBefore(cfg, script, k), script[k]);
  }
}
