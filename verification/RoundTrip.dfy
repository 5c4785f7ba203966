/** Replaying the log of a fresh run gives back its live conversation - exactly when every call was allowed and
    every tool turn after the first carried text. Both conditions can be read off the turns themselves. */
module RoundTrip {
  import opened AgentLog
  import opened ChatLoop

  /** The store numbers payloads consecutively. */
  function Number(ps: seq<Payload>, from: nat): (r: seq<RunEvent>)
    ensures |r| == |ps|
  {
    seq(|ps|, i requires 0 <= i < |ps| => RunEvent(from + i, ps[i]))
  }

  /** A payload whose replay does not depend on its number. */
  predicate Named(p: Payload) {
    (p.ToolCall? ==> p.callId != "") && (IsOutcome(p) ==> p.callId != "")
  }

  ghost predicate AllNamed(ps: seq<Payload>) { forall p | p in ps :: Named(p) }

  function Play(r: Replay, ps: seq<Payload>): Replay
    decreases |ps|
  {
    if ps == [] then r else Play(Step(r, RunEvent(0, ps[0])), ps[1..])
  }

  lemma {:induction false} NumberingIsImmaterial(r: Replay, ps: seq<Payload>, from: nat)
    requires AllNamed(ps)
    ensures Fold(r, Number(ps, from)) == Play(r, ps)
    decreases |ps|
  {
    if ps != [] {
      assert Named(ps[0]);
      assert Number(ps, from)[1..] == Number(ps[1..], from + 1);
      NumberingIsImmaterial(Step(r, RunEvent(0, ps[0])), ps[1..], from + 1);
    }
  }

  lemma {:induction false} PlayAppend(r: Replay, xs: seq<Payload>, ys: seq<Payload>)
    ensures Play(r, xs + ys) == Play(Play(r, xs), ys)
    decreases |xs|
  {
    if xs == [] {
      assert xs + ys == ys;
    } else {
      assert (xs + ys)[1..] == xs[1..] + ys;
      PlayAppend(Step(r, RunEvent(0, xs[0])), xs[1..], ys);
    }
  }

  // ---------------------------------------------------------------- the replay of one turn

  ghost predicate GoodTurn(t: Turn) { t.records != [] && forall r | r in t.records :: r.id != "" }

  ghost predicate GoodTurns(ts: seq<Turn>) { forall t | t in ts :: GoodTurn(t) }

  function AllowedRecords(rs: seq<CallRecord>): seq<CallRecord> {
    if rs == [] then [] else (if Allowed(rs[0].gate) then [rs[0]] else []) + AllowedRecords(rs[1..])
  }

  function Ids(rs: seq<CallRecord>): set<string> { set r | r in rs :: r.id }

  lemma PlayNil(r: Replay)
    ensures Play(r, []) == r
  {
  }

  lemma PlayOne(r: Replay, p: Payload)
    ensures Play(r, [p]) == Step(r, RunEvent(0, p))
  {
    assert [p][1..] == [];
  }

  lemma AnnounceStep(r: Replay, c: CallRecord)
    requires c.id != ""
    ensures Play(r, Announce(c)) ==
            if Allowed(c.gate) then r.(assistant := r.assistant + [UseBlock(c)], pending := r.pending + {c.id}) else r
  {
    var asked: seq<Payload> := if c.gate.Asked? then
        [ConfirmRequest(c.gate.confirmationId, c.id, c.name, c.args),
         ConfirmationResult(c.gate.confirmationId, c.id, c.name, c.gate.approved)]
      else [];
    var announced: seq<Payload> := if Allowed(c.gate) then [ToolCall(c.id, c.name, c.args)] else [];
    PlayAppend(r, asked, announced);
    if c.gate.Asked? {
      assert asked[1..] == [asked[1]];
      PlayOne(r, asked[1]);
    }
    if Allowed(c.gate) {
      PlayOne(r, announced[0]);
    }
  }

  lemma {:induction false} AnnouncePlay(r: Replay, rs: seq<CallRecord>)
    requires forall c | c in rs :: c.id != ""
    ensures Play(r, AnnounceAll(rs)) ==
            r.(assistant := r.assistant + UseBlocks(AllowedRecords(rs)), pending := r.pending + Ids(AllowedRecords(rs)))
    decreases |rs|
  {
    hide Announce, UseBlock, Allowed, Play, Step;
    if rs == [] {
      PlayNil(r);
      assert UseBlocks([]) == [] && Ids([]) == {};
    } else {
      var c := rs[0];
      assert c in rs;
      AnnounceStep(r, c);
      PlayAppend(r, Announce(c), AnnounceAll(rs[1..]));
      AnnouncePlay(Play(r, Announce(c)), rs[1..]);
      var rest := AllowedRecords(rs[1..]);
      if Allowed(c.gate) {
        assert UseBlocks([c] + rest) == [UseBlock(c)] + UseBlocks(rest);
        assert Ids([c] + rest) == {c.id} + Ids(rest);
        assert r.assistant + ([UseBlock(c)] + UseBlocks(rest)) == (r.assistant + [UseBlock(c)]) + UseBlocks(rest);
      } else {
        assert [] + rest == rest;
      }
    }
  }

  function Reported(r: Replay, c: CallRecord): Replay {
    var f := FlushAssistant(r);
    f.(results := f.results + [ReportBlock(c, Logged)], pending := f.pending - {c.id})
  }

  lemma ReportStep(r: Replay, c: CallRecord, failures: nat)
    requires c.id != ""
    ensures Play(r, Report(c, failures)) == Reported(r, c)
  {
    match c.outcome
    case Failure(message) => PlayOne(r, ToolError(c.id, c.name, message, failures));
    case Success(result) =>
      var before: seq<Payload> := if c.name == UpdatePlan then [Notice(PlanUpdate)] else [];
      var after: seq<Payload> := if c.verified then [Notice(Verification)] else [];
      var main := ToolResult(c.id, c.name, result);
      PlayAppend(r, before + [main], after);
      PlayAppend(r, before, [main]);
      PlayOne(r, Notice(PlanUpdate));
      PlayOne(r, main);
      PlayOne(Reported(r, c), Notice(Verification));
  }

  lemma {:induction false} ReportPlay(r: Replay, failures: map<ToolName, nat>, rs: seq<CallRecord>)
    requires rs != [] && forall c | c in rs :: c.id != ""
    ensures var f := FlushAssistant(r);
            Play(r, ReportAll(failures, rs))
                == f.(results := f.results + ReportBlocks(rs, Logged), pending := f.pending - Ids(rs))
    decreases |rs|
  {
    hide Report, ReportBlock, CountOf, CountReport, Play, Step;
    var c := rs[0];
    assert c in rs;
    var f := CountReport(failures, c.name, c.outcome);
    var n := CountOf(f, c.name);
    var g := FlushAssistant(r);
    ReportStep(r, c, n);
    PlayAppend(r, Report(c, n), ReportAll(f, rs[1..]));
    var rest := rs[1..];
    assert rs == [c] + rest;
    assert ReportBlocks(rs, Logged) == [ReportBlock(c, Logged)] + ReportBlocks(rest, Logged);
    assert Ids(rs) == {c.id} + Ids(rest);
    if rest == [] {
      PlayNil(Reported(r, c));
      assert ReportBlocks(rest, Logged) == [] && Ids(rest) == {};
      assert g.results + [ReportBlock(c, Logged)] == g.results + ReportBlocks(rs, Logged);
    } else {
      ReportPlay(Reported(r, c), f, rest);
      assert (g.results + [ReportBlock(c, Logged)]) + ReportBlocks(rest, Logged) == g.results + ReportBlocks(rs, Logged);
      assert g.pending - {c.id} - Ids(rest) == g.pending - Ids(rs);
    }
  }

  /** The replay state after one more turn, in closed form. */
  function AfterTurn(r: Replay, t: Turn): Replay {
    var begun := if t.text == "" then r else FlushResults(r).(assistant := [TextBlock(t.text)]);
    var announced := begun.(assistant := begun.assistant + UseBlocks(AllowedRecords(t.records)),
                          pending := begun.pending + Ids(AllowedRecords(t.records)));
    var closed := FlushAssistant(announced);
    closed.(results := closed.results + ReportBlocks(t.records, Logged), pending := closed.pending - Ids(t.records))
  }

  lemma TurnPlay(r: Replay, t: Turn)
    requires r.assistant == [] && GoodTurn(t)
    ensures Play(r, EmitTurn(t)) == AfterTurn(r, t)
    ensures AfterTurn(r, t).assistant == [] && AfterTurn(r, t).results != []
  {
    var opening := Opening(t.text, t.usage);
    PlayAppend(r, opening + AnnounceAll(t.records), ReportAll(t.failures, t.records));
    PlayAppend(r, opening, AnnounceAll(t.records));
    var begun := if t.text == "" then r else FlushResults(r).(assistant := [TextBlock(t.text)]);
    assert Play(r, opening) == begun by {
      OpeningPlay(r, t.text, t.usage);
    }
    AnnouncePlay(begun, t.records);
    ReportPlay(Play(begun, AnnounceAll(t.records)), t.failures, t.records);
  }

  lemma OpeningPlay(r: Replay, text: string, usage: bool)
    requires r.assistant == []
    ensures Play(r, Opening(text, usage)) == if text == "" then r else FlushResults(r).(assistant := [TextBlock(text)])
  {
    var a: seq<Payload> := if usage then [Notice(Usage)] else [];
    var b: seq<Payload> := if text != "" then [Text(text)] else [];
    PlayAppend(r, a, b);
    PlayOne(r, Notice(Usage));
    PlayOne(r, Text(text));
  }

  // ---------------------------------------------------------------- the replay of a run

  function EmitTurns(ts: seq<Turn>): seq<Payload> {
    if ts == [] then [] else EmitTurn(ts[0]) + EmitTurns(ts[1..])
  }

  function Conversation(ts: seq<Turn>, v: View): seq<Message> {
    if ts == [] then [] else TurnMessages(ts[0], v) + Conversation(ts[1..], v)
  }

  function AfterTurns(r: Replay, ts: seq<Turn>): Replay
    decreases |ts|
  {
    if ts == [] then r else AfterTurns(AfterTurn(r, ts[0]), ts[1..])
  }

  lemma {:induction false} TurnsPlay(r: Replay, ts: seq<Turn>)
    requires r.assistant == [] && GoodTurns(ts)
    ensures Play(r, EmitTurns(ts)) == AfterTurns(r, ts)
    ensures AfterTurns(r, ts).assistant == []
    decreases |ts|
  {
    if ts != [] {
      hide EmitTurn, AfterTurn;
      assert ts[0] in ts;
      TurnPlay(r, ts[0]);
      PlayAppend(r, EmitTurn(ts[0]), EmitTurns(ts[1..]));
      TurnsPlay(AfterTurn(r, ts[0]), ts[1..]);
    }
  }

  ghost predicate AllAllowed(t: Turn) { forall r | r in t.records :: Allowed(r.gate) }

  /** The condition of the round trip. */
  ghost predicate Faithful(ts: seq<Turn>) {
    (forall i | 0 <= i < |ts| :: AllAllowed(ts[i])) && (forall i | 1 <= i < |ts| :: ts[i].text != "")
  }

  lemma {:induction false} AllowedIsAll(rs: seq<CallRecord>)
    ensures (forall r | r in rs :: Allowed(r.gate)) ==> AllowedRecords(rs) == rs
    ensures |AllowedRecords(rs)| <= |rs|
    ensures |AllowedRecords(rs)| == |rs| ==> forall r | r in rs :: Allowed(r.gate)
    ensures forall r | r in AllowedRecords(rs) :: r in rs
  {
    if rs != [] {
      assert rs == [rs[0]] + rs[1..];
      AllowedIsAll(rs[1..]);
    }
  }

  function Closed(r: Replay): seq<Message> { FlushResults(r).convo }

  /** One faithful turn adds exactly its two messages. */
  lemma FaithfulTurn(r: Replay, t: Turn)
    requires r.assistant == [] && GoodTurn(t) && AllAllowed(t) && (r.results == [] || t.text != "")
    ensures Closed(AfterTurn(r, t)) == Closed(r) + TurnMessages(t, Logged)
  {
    AllowedIsAll(t.records);
    var a := Message(Assistant, Blocks(TextBlocks(t.text) + UseBlocks(t.records)));
    var u := Message(User, Blocks(ReportBlocks(t.records, Logged)));
    if t.text == "" {
      assert [] + UseBlocks(t.records) == UseBlocks(t.records);
    }
    assert [] + ReportBlocks(t.records, Logged) == ReportBlocks(t.records, Logged);
    assert AfterTurn(r, t).convo == Closed(r) + [a];
    assert (Closed(r) + [a]) + [u] == Closed(r) + [a, u];
  }

  lemma {:induction false} FaithfulTurns(r: Replay, ts: seq<Turn>)
    requires r.assistant == [] && GoodTurns(ts)
    requires (forall i | 0 <= i < |ts| :: AllAllowed(ts[i]))
                && (forall i | 0 <= i < |ts| :: ts[i].text != "" || (i == 0 && r.results == []))
    ensures Closed(AfterTurns(r, ts)) == Closed(r) + Conversation(ts, Logged)
    decreases |ts|
  {
    hide AfterTurn, TurnMessages, Closed, AllAllowed, GoodTurn;
    if ts == [] {
      assert Closed(r) + [] == Closed(r);
    } else {
      var t, rest := ts[0], ts[1..];
      assert t in ts;
      FaithfulTurn(r, t);
      TurnPlay(r, t);
      FaithfulTurns(AfterTurn(r, t), rest);
      assert (Closed(r) + TurnMessages(t, Logged)) + Conversation(rest, Logged)
          == Closed(r) + (TurnMessages(t, Logged) + Conversation(rest, Logged));
    }
  }

  // Two counts tell unfaithful replays apart: tool uses, and messages that carry results.

  function ResultMessages(ms: seq<Message>): nat {
    if ms == [] then 0 else (if ms[0].role == User && ms[0].content.Blocks? then 1 else 0) + ResultMessages(ms[1..])
  }

  function NumUses(ms: seq<Message>): nat { |Uses(ms)| }

  lemma {:induction false} CountsAppend(xs: seq<Message>, ys: seq<Message>)
    ensures ResultMessages(xs + ys) == ResultMessages(xs) + ResultMessages(ys)
    ensures NumUses(xs + ys) == NumUses(xs) + NumUses(ys)
    decreases |xs|
  {
    ConversationAppend(xs, ys);
    if xs == [] {
      assert xs + ys == ys;
    } else {
      assert (xs + ys)[1..] == xs[1..] + ys;
      CountsAppend(xs[1..], ys);
    }
  }

  lemma {:induction false} UseBlocksAreUses(rs: seq<CallRecord>)
    ensures |UsesIn(UseBlocks(rs))| == |rs|
    ensures UsesIn(ReportBlocks(rs, Logged)) == []
  {
    if rs != [] {
      UseBlocksAreUses(rs[1..]);
      assert UseBlocks(rs)[1..] == UseBlocks(rs[1..]);
      assert ReportBlocks(rs, Logged)[1..] == ReportBlocks(rs[1..], Logged);
    }
  }

  lemma CountOne(m: Message, blocks: seq<Block>)
    requires m.content == Blocks(blocks)
    ensures NumUses([m]) == |UsesIn(blocks)| && ResultMessages([m]) == if m.role == User then 1 else 0
  {
    UsesOfOne(m);
    assert [m][1..] == [];
  }

  lemma CountTurnMessages(t: Turn)
    ensures NumUses(TurnMessages(t, Logged)) == |t.records| && ResultMessages(TurnMessages(t, Logged)) == 1
  {
    var ms := TurnMessages(t, Logged);
    assert ms == [ms[0]] + [ms[1]];
    CountsAppend([ms[0]], [ms[1]]);
    UseBlocksAreUses(t.records);
    BlocksAppend(TextBlocks(t.text), UseBlocks(t.records));
    assert UsesIn(TextBlocks(t.text)) == [] by { assert UsesIn([]) == []; }
    CountOne(ms[0], TextBlocks(t.text) + UseBlocks(t.records));
    CountOne(ms[1], ReportBlocks(t.records, Logged));
  }

  lemma {:induction false} CountConversation(ts: seq<Turn>)
    ensures ResultMessages(Conversation(ts, Logged)) == |ts|
    ensures NumUses(Conversation(ts, Logged)) == TotalCalls(ts)
  {
    if ts != [] {
      CountConversation(ts[1..]);
      CountTurnMessages(ts[0]);
      CountsAppend(TurnMessages(ts[0], Logged), Conversation(ts[1..], Logged));
    }
  }

  function TotalCalls(ts: seq<Turn>): nat {
    if ts == [] then 0 else |ts[0].records| + TotalCalls(ts[1..])
  }

  function TotalAllowed(ts: seq<Turn>): nat {
    if ts == [] then 0 else |AllowedRecords(ts[0].records)| + TotalAllowed(ts[1..])
  }

  /** Turns that make the replay close a result message: the first, and those with text. */
  function TotalFlushes(ts: seq<Turn>, open: bool): nat {
    if ts == [] then 0 else (if !open || ts[0].text != "" then 1 else 0) + TotalFlushes(ts[1..], true)
  }

  lemma FlushResultsCounts(r: Replay)
    requires forall b | b in r.results :: b.ResultBlock?
    ensures NumUses(FlushResults(r).convo) == NumUses(r.convo)
    ensures ResultMessages(FlushResults(r).convo) == ResultMessages(r.convo) + if r.results == [] then 0 else 1
  {
    if r.results != [] {
      var m := Message(User, Blocks(r.results));
      CountsAppend(r.convo, [m]);
      PureLists(r.results);
      CountOne(m, r.results);
    }
  }

  lemma FlushAssistantCounts(r: Replay)
    ensures NumUses(FlushAssistant(r).convo) == NumUses(r.convo) + |UsesIn(r.assistant)|
    ensures ResultMessages(FlushAssistant(r).convo) == ResultMessages(r.convo)
  {
    if r.assistant != [] {
      var m := Message(Assistant, Blocks(r.assistant));
      CountsAppend(r.convo, [m]);
      CountOne(m, r.assistant);
    }
  }

  lemma CountAfterTurn(r: Replay, t: Turn)
    requires r.assistant == [] && GoodTurn(t) && forall b | b in r.results :: b.ResultBlock?
    ensures var s := AfterTurn(r, t);
            && (forall b | b in s.results :: b.ResultBlock?) && s.results != [] && s.assistant == []
            && NumUses(s.convo) == NumUses(r.convo) + |AllowedRecords(t.records)|
            && ResultMessages(s.convo) == ResultMessages(r.convo) + if t.text != "" && r.results != [] then 1 else 0
  {
    FlushResultsCounts(r);
    var begun := if t.text == "" then r else FlushResults(r).(assistant := [TextBlock(t.text)]);
    var announced := begun.(assistant := begun.assistant + UseBlocks(AllowedRecords(t.records)),
                          pending := begun.pending + Ids(AllowedRecords(t.records)));
    FlushAssistantCounts(announced);
    UseBlocksAreUses(AllowedRecords(t.records));
    BlocksAppend(begun.assistant, UseBlocks(AllowedRecords(t.records)));
    assert UsesIn(begun.assistant) == [] by { assert UsesIn([]) == []; }
    var s := AfterTurn(r, t);
    assert s.convo == FlushAssistant(announced).convo;
    forall b | b in s.results ensures b.ResultBlock? {
      assert b in begun.results || b in ReportBlocks(t.records, Logged);
    }
  }

  lemma {:induction false} CountAfterTurns(r: Replay, ts: seq<Turn>)
    requires r.assistant == [] && GoodTurns(ts) && forall b | b in r.results :: b.ResultBlock?
    ensures NumUses(Closed(AfterTurns(r, ts))) == NumUses(r.convo) + TotalAllowed(ts)
    ensures ResultMessages(Closed(AfterTurns(r, ts))) ==
            ResultMessages(r.convo) + (if r.results == [] then 0 else 1) + TotalFlushes(ts, r.results != [])
    decreases |ts|
  {
    if ts == [] {
      FlushResultsCounts(r);
    } else {
      assert ts[0] in ts;
      CountAfterTurn(r, ts[0]);
      hide AfterTurn, Closed;
      CountAfterTurns(AfterTurn(r, ts[0]), ts[1..]);
    }
  }

  lemma {:induction false} TotalsDecide(ts: seq<Turn>, open: bool)
    ensures TotalAllowed(ts) <= TotalCalls(ts)
                && (TotalAllowed(ts) == TotalCalls(ts) ==> forall i | 0 <= i < |ts| :: AllAllowed(ts[i]))
    ensures TotalFlushes(ts, open) <= |ts|
    ensures TotalFlushes(ts, open) == |ts| ==> forall i | 0 <= i < |ts| :: ts[i].text != "" || (i == 0 && !open)
  {
    if ts != [] {
      TotalsDecide(ts[1..], true);
      AllowedIsAll(ts[0].records);
      forall i | 0 <= i < |ts| && TotalFlushes(ts, open) == |ts| ensures ts[i].text != "" || (i == 0 && !open) {
        assert i > 0 ==> ts[i] == ts[1..][i - 1];
      }
      forall i | 0 <= i < |ts| && TotalAllowed(ts) == TotalCalls(ts) ensures AllAllowed(ts[i]) {
        assert i > 0 ==> ts[i] == ts[1..][i - 1];
      }
    }
  }

  lemma {:induction false} EmittedAreNamed(ts: seq<Turn>)
    requires GoodTurns(ts)
    ensures AllNamed(EmitTurns(ts))
  {
    if ts != [] {
      assert ts[0] in ts;
      EmittedAreNamed(ts[1..]);
      AnnouncedAreNamed(ts[0].records);
      ReportedAreNamed(ts[0].failures, ts[0].records);
    }
  }

  lemma {:induction false} AnnouncedAreNamed(rs: seq<CallRecord>)
    requires forall r | r in rs :: r.id != ""
    ensures AllNamed(AnnounceAll(rs))
  {
    if rs != [] {
      assert rs[0] in rs;
      AnnouncedAreNamed(rs[1..]);
    }
  }

  lemma {:induction false} ReportedAreNamed(failures: map<ToolName, nat>, rs: seq<CallRecord>)
    requires forall r | r in rs :: r.id != ""
    ensures AllNamed(ReportAll(failures, rs))
    decreases |rs|
  {
    if rs != [] {
      assert rs[0] in rs;
      ReportedAreNamed(CountReport(failures, rs[0].name, rs[0].outcome), rs[1..]);
    }
  }

  /** The round trip: replaying what a run of tool turns logged gives the conversation it had, with each result
      in its logged form, if and only if no call was denied and every turn after the first carried text. */
  lemma RoundTripIff(initial: seq<Message>, ts: seq<Turn>)
    requires AllPlain(initial) && GoodTurns(ts)
    ensures Rebuilt(initial, Number(EmitTurns(ts), 1)) == initial + Conversation(ts, Logged) <==> Faithful(ts)
  {
    var start := Start(initial);
    EmittedAreNamed(ts);
    NumberingIsImmaterial(start, EmitTurns(ts), 1);
    TurnsPlay(start, ts);
    assert Rebuilt(initial, Number(EmitTurns(ts), 1)) == Closed(AfterTurns(start, ts));
    assert Closed(start) == initial;
    if Faithful(ts) {
      FaithfulTurns(start, ts);
    } else {
      CountAfterTurns(start, ts);
      CountConversation(ts);
      CountsAppend(initial, Conversation(ts, Logged));
      TotalsDecide(ts, false);
      assert TotalAllowed(ts) != TotalCalls(ts) || TotalFlushes(ts, false) != |ts|;
    }
  }

  // ---------------------------------------------------------------- back to the loop

  function TurnsOf(cfg: Config, script: Script, k: nat): seq<Turn>
    requires k <= |script|
  {
    if k == 0 then [] else TurnsOf(cfg, script, k - 1) + [TurnAt(cfg, script, k - 1)]
  }

  ghost predicate NeverCompacts(script: Script, k: nat)
    requires k <= |script|
  {
    forall i | 0 <= i < k :: !script[i].compaction.Summary?
  }

  lemma {:induction false} EmitAppend(ts: seq<Turn>, t: Turn, v: View)
    ensures EmitTurns(ts + [t]) == EmitTurns(ts) + EmitTurn(t)
    ensures Conversation(ts + [t], v) == Conversation(ts, v) + TurnMessages(t, v)
    decreases |ts|
  {
    hide EmitTurn, TurnMessages;
    if ts == [] {
      assert ts + [t] == [t] && [t][1..] == [];
      assert EmitTurn(t) + [] == [] + EmitTurn(t) && TurnMessages(t, v) + [] == [] + TurnMessages(t, v);
    } else {
      assert (ts + [t])[1..] == ts[1..] + [t];
      EmitAppend(ts[1..], t, v);
    }
  }

  lemma UncompactedTurn(cfg: Config, start: seq<Message>, script: Script, k: nat)
    requires k < |script| && IsToolTurn(script[k]) && !script[k].compaction.Summary?
    ensures Compact(cfg, ConvoBefore(cfg, start, script, k), script[k].compaction) == ConvoBefore(cfg, start, script, k)
    ensures CompactionEvents(cfg, start, script, k) == []
    ensures TurnAt(cfg, script, k) == PlayTurn(cfg, k, FailuresBefore(cfg, script, k), script[k])
    ensures GoodTurn(TurnAt(cfg, script, k))
  {
  }

  lemma {:induction false} RunIsItsTurns(cfg: Config, start: seq<Message>, script: Script, k: nat)
    requires ToolTurns(script, k) && NeverCompacts(script, k)
    ensures EventsBefore(cfg, start, script, k) == EmitTurns(TurnsOf(cfg, script, k))
    ensures ConvoBefore(cfg, start, script, k) == start + Conversation(TurnsOf(cfg, script, k), Live)
    ensures GoodTurns(TurnsOf(cfg, script, k)) && |TurnsOf(cfg, script, k)| == k
  {
    hide TurnAt, PlayTurn, EmitTurn, TurnMessages, EventsBefore, ConvoBefore, Compact, CompactionEvents, GoodTurn,
      IsToolTurn;
    if k == 0 {
      AtStart(cfg, start, script);
      assert start + [] == start;
    } else {
      RunIsItsTurns(cfg, start, script, k - 1);
      var ts, t := TurnsOf(cfg, script, k - 1), TurnAt(cfg, script, k - 1);
      assert IsToolTurn(script[k - 1]);
      UncompactedTurn(cfg, start, script, k - 1);
      Recurrences(cfg, start, script, k - 1);
      EmitAppend(ts, t, Live);
      assert EmitTurns(ts) + [] == EmitTurns(ts);
      assert start + Conversation(ts, Live) + TurnMessages(t, Live) == start + (Conversation(ts, Live) + TurnMessages(t, Live));
    }
  }

  /** For the loop itself: at any turn boundary of a fresh run without compaction or memories, the rebuilt
      conversation is the live one with results in logged form, exactly under the same condition. */
  lemma LoopRoundTripIff(cfg: Config, messages: seq<Message>, script: Script, k: nat)
    requires AllPlain(messages) && ToolTurns(script, k) && NeverCompacts(script, k)
    ensures var ts := TurnsOf(cfg, script, k);
            && ConvoBefore(cfg, messages, script, k) == messages + Conversation(ts, Live)
            && var rebuilt := Rebuilt(messages, Number(EventsBefore(cfg, messages, script, k), 1));
               (rebuilt == messages + Conversation(ts, Logged) <==> Faithful(ts))
  {
    RunIsItsTurns(cfg, messages, script, k);
    RoundTripIff(messages, TurnsOf(cfg, script, k));
  }

  /** The condition is not idle: a second tool turn without text fuses with the first, so the first turn's
      results end up behind the second turn's calls. */
  lemma TextlessTurnBreaksReplay(initial: seq<Message>, c1: CallRecord, c2: CallRecord)
    requires AllPlain(initial) && c1.id != "" && c2.id != "" && c1.gate.Open? && c2.gate.Open?
    ensures var ts := [Turn("plan", false, map[], [c1]), Turn("", false, map[], [c2])];
            Rebuilt(initial, Number(EmitTurns(ts), 1)) != initial + Conversation(ts, Logged)
  {
    var ts := [Turn("plan", false, map[], [c1]), Turn("", false, map[], [c2])];
    assert GoodTurn(ts[0]) && GoodTurn(ts[1]);
    RoundTripIff(initial, ts);
    assert ts[1].text == "";
  }
}
