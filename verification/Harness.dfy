/** The harness: every command goes through the policies, one agent, the event log and the memory of one scope.

    Agents are arbitrary functions of the command and its context; what a model or a clock contributes is part of
    the command (`oracle`). The two compiled patterns of the redaction are span finders, as in module Pii. */
module Harness {
  import opened Wrappers
  import Pii

  datatype Kind =
    | CreateCampaign | RefineOutline | RegisterRespondents | StartCampaign | ReplyInInterview | PushInsights
    | DispatchInvites | UnknownKind

  datatype Command = Command(kind: Kind, campaign: Option<nat>, interview: Option<nat>, text: Option<string>, oracle: nat)

  datatype Role = Respondent | Interviewer

  datatype Event =
    | TurnRecorded(campaign: nat, interview: nat, order: nat, role: Role, text: string)
    | BudgetThresholdCrossed(campaign: nat, threshold: real, spent: real)
    | PIIRedacted(campaign: nat, interview: nat, fields: seq<Pii.Field>)
    | EscalationTriggered(campaign: nat, high: bool)
    | OtherEvent(campaign: nat, content: string)

  datatype Value = Num(amount: real) | Json(code: string)

  type Context = map<string, Value>

  type Memory = map<nat, Context>

  datatype AgentResult = AgentResult(events: seq<Event>, delta: Context, response: string, followUps: seq<Command>)

  /** An agent answers or raises. */
  type Agent = (Command, Context) -> Option<AgentResult>

  datatype AgentName = Designer | Coordinator | InterviewerAgent | Dispatch

  datatype Severity = Calm | Medium | High

  datatype Config = Config(
    warn: real, hard: real, redact: string -> (string, seq<Pii.Field>), severity: string -> Severity,
    agents: map<AgentName, Agent>, observe: AgentResult -> seq<Event>)

  datatype Verdict = Verdict(allowed: bool, events: seq<Event>, command: Command)

  datatype Response = Ok(result: string, written: nat) | Denied(written: nat) | NoAgent(written: nat) | Raised | TooDeep

  datatype World = World(log: seq<Event>, memory: Memory)

  const MAX_FOLLOW_UP_DEPTH := 3

  const SPENT := "spent_usd"
  const BUDGET := "budget_usd"

  // ---------------------------------------------------------------- policies

  function Amount(ctx: Context, key: string): real {
    if key in ctx && ctx[key].Num? then ctx[key].amount else 0.0
  }

  /** Spending against the budget; an absent budget counts as almost nothing. */
  function BudgetRatio(ctx: Context): real {
    var budget := Amount(ctx, BUDGET);
    Amount(ctx, SPENT) / (if budget == 0.0 then 0.000000001 else budget)
  }

  function BudgetPolicy(cfg: Config, cmd: Command, ctx: Context): Verdict {
    var ratio, spent := BudgetRatio(ctx), Amount(ctx, SPENT);
    if cmd.campaign.Some? && ratio >= cfg.hard
        then Verdict(false, [BudgetThresholdCrossed(cmd.campaign.value, cfg.hard, spent)], cmd)
    else if cmd.campaign.Some? && ratio >= cfg.warn
        then Verdict(true, [BudgetThresholdCrossed(cmd.campaign.value, cfg.warn, spent)], cmd)
    else Verdict(true, [], cmd)
  }

  /** Cleans the command's text in place. */
  function PIIPolicy(cfg: Config, cmd: Command): Verdict {
    if cmd.text.None? then Verdict(true, [], cmd)
    else
      var (cleaned, fields) := cfg.redact(cmd.text.value);
      if fields == [] then Verdict(true, [], cmd)
      else
        var events := if cmd.campaign.Some? && cmd.interview.Some?
            then [PIIRedacted(cmd.campaign.value, cmd.interview.value, fields)] else [];
        Verdict(true, events, cmd.(text := Some(cleaned)))
  }

  function EscalationPolicy(cfg: Config, cmd: Command): Verdict {
    if cmd.text.Some? && cmd.campaign.Some? && !cfg.severity(cmd.text.value).Calm? then
      Verdict(true, [EscalationTriggered(cmd.campaign.value, cfg.severity(cmd.text.value).High?)], cmd)
    else Verdict(true, [], cmd)
  }

  /** The stack in its configured order; the first refusal ends it, and the events so far stand. */
  function AllowAll(cfg: Config, cmd: Command, ctx: Context): Verdict {
    var b := BudgetPolicy(cfg, cmd, ctx);
    if !b.allowed then b
    else
      var p := PIIPolicy(cfg, b.command);
      var e := EscalationPolicy(cfg, p.command);
      Verdict(true, b.events + p.events + e.events, e.command)
  }

  function Route(kind: Kind): Option<AgentName> {
    match kind
    case CreateCampaign => Some(Designer)
    case RefineOutline => Some(Designer)
    case RegisterRespondents => Some(Coordinator)
    case StartCampaign => Some(Coordinator)
    case PushInsights => Some(Coordinator)
    case ReplyInInterview => Some(InterviewerAgent)
    case DispatchInvites => Some(Dispatch)
    case UnknownKind => None
  }

  // ---------------------------------------------------------------- memory scopes

  function Scope(m: Memory, id: nat): Context { if id in m then m[id] else map[] }

  /** The interview's own memory overrides the campaign's. */
  function LoadContext(m: Memory, cmd: Command): Context {
    if cmd.campaign.None? then map[]
    else if cmd.interview.None? then Scope(m, cmd.campaign.value)
    else Scope(m, cmd.campaign.value) + Scope(m, cmd.interview.value)
  }

  /** Where a result's state goes: the interview if there is one, else the campaign - for a command that creates
      one, the campaign of its first event. */
  function TargetScope(cmd: Command, events: seq<Event>): Option<nat> {
    var cid := if cmd.campaign.Some? then cmd.campaign else if events != [] then Some(events[0].campaign) else None;
    if cid.None? then None else if cmd.interview.Some? then cmd.interview else cid
  }

  datatype Write = Write(scope: nat, delta: Context)

  function WriteOf(cmd: Command, r: AgentResult): Option<Write> {
    var scope := TargetScope(cmd, r.events);
    if r.delta == map[] || scope.None? then None else Some(Write(scope.value, r.delta))
  }

  function UpdateMemory(m: Memory, w: Option<Write>): Memory {
    if w.None? then m else m[w.value.scope := Scope(m, w.value.scope) + w.value.delta]
  }

  class InMemoryMemory {
    var data: Memory
    var claims: set<string>

    constructor ()
      ensures data == map[] && claims == {}
    {
      data, claims := map[], {};
    }

    method Load(id: nat) returns (ctx: Context)
      ensures ctx == Scope(data, id)
    {
      ctx := if id in data then data[id] else map[];
    }

    /** Merges into one scope and leaves every other as it was. */
    method Update(id: nat, delta: Context)
      modifies this`data
      ensures Scope(data, id) == Scope(old(data), id) + delta
      ensures forall other | other != id :: Scope(data, other) == Scope(old(data), other)
      ensures data == old(data)[id := Scope(old(data), id) + delta]
    {
      var current := if id in data then data[id] else map[];
      data := data[id := current + delta];
    }

    method Clear(id: nat)
      modifies this`data
      ensures forall other :: Scope(data, other) == if other == id then map[] else Scope(old(data), other)
    {
      data := data - {id};
    }

    /** Grants each key to its first claimant only. */
    method ClaimOnce(key: string) returns (granted: bool)
      modifies this`claims
      ensures granted <==> key !in old(claims)
      ensures claims == old(claims) + {key}
    {
      granted := key !in claims;
      claims := claims + {key};
    }
  }

  // ---------------------------------------------------------------- handling a command

  /** All that one command brings about, given the context it was loaded with: what is appended before the memory
      is written and after it, the write, the answer, and the commands that follow. */
  datatype Reaction = Reaction(before: seq<Event>, write: Option<Write>, after: seq<Event>, response: Response,
                               followUps: seq<Command>)

  function React(cfg: Config, cmd: Command, ctx: Context): Reaction {
    var pre := AllowAll(cfg, cmd, ctx);
    var name := Route(cmd.kind);
    if !pre.allowed then Reaction(pre.events, None, [], Denied(|pre.events|), [])
    else if name.None? then Reaction(pre.events, None, [], Raised, [])
    else if name.value !in cfg.agents then Reaction(pre.events, None, [], NoAgent(|pre.events|), [])
    else
      var answer := cfg.agents[name.value](pre.command, ctx);
      if answer.None? then Reaction(pre.events, None, [], Raised, [])
      else
        var r := answer.value;
        var post := cfg.observe(r);
        Reaction(pre.events + r.events, WriteOf(pre.command, r), post,
                 Ok(r.response, |pre.events| + |r.events| + |post|), r.followUps)
  }

  function Settle(w: World, x: Reaction): World {
    World(w.log + x.before + x.after, UpdateMemory(w.memory, x.write))
  }

  /** What is left of the follow-up budget. */
  function Depth(depth: nat): nat { if depth <= MAX_FOLLOW_UP_DEPTH then MAX_FOLLOW_UP_DEPTH + 1 - depth else 0 }

  /** A follow-up that raises ends its parent, too. */
  function HandleOne(cfg: Config, w: World, cmd: Command, depth: nat): (World, Response)
    decreases 2 * Depth(depth), 0
  {
    if depth > MAX_FOLLOW_UP_DEPTH then (w, TooDeep)
    else
      var x := React(cfg, cmd, LoadContext(w.memory, cmd));
      var (end, raised) := HandleEach(cfg, Settle(w, x), x.followUps, depth + 1);
      (end, if raised then Raised else x.response)
  }

  function HandleEach(cfg: Config, w: World, cmds: seq<Command>, depth: nat): (World, bool)
    decreases 2 * Depth(depth) + 1, |cmds|
  {
    if cmds == [] then (w, false)
    else
      var (w', r) := HandleOne(cfg, w, cmds[0], depth);
      if r.Raised? then (w', true) else HandleEach(cfg, w', cmds[1..], depth)
  }

  class Harness {
    const cfg: Config
    var log: seq<Event>
    const memory: InMemoryMemory

    constructor (cfg: Config, memory: InMemoryMemory)
      ensures this.cfg == cfg && this.memory == memory && log == []
    {
      this.cfg, this.memory, log := cfg, memory, [];
    }

    method Handle(cmd: Command, depth: nat) returns (r: Response)
      modifies this`log, memory`data
      ensures (World(log, memory.data), r) == HandleOne(cfg, World(old(log), old(memory.data)), cmd, depth)
      decreases Depth(depth)
    {
      hide AllowAll, LoadContext, TargetScope;
      if depth > MAX_FOLLOW_UP_DEPTH {
        return TooDeep;
      }
      ghost var start := World(log, memory.data);
      var ctx := LoadContext(memory.data, cmd);
      ghost var x := React(cfg, cmd, ctx);
      var pre := AllowAll(cfg, cmd, ctx);
      var written := |pre.events|;
      log := log + pre.events;
      assert log + [] == log;
      var name := Route(cmd.kind);
      if !pre.allowed {
        return Denied(written);
      }
      if name.None? {
        return Raised;
      }
      if name.value !in cfg.agents {
        return NoAgent(written);
      }
      var answer := cfg.agents[name.value](pre.command, ctx);
      if answer.None? {
        return Raised;
      }
      var result := answer.value;
      log := log + result.events;
      written := written + |result.events|;
      if result.delta != map[] {
        var scope := TargetScope(pre.command, result.events);
        if scope.Some? {
          memory.Update(scope.value, result.delta);
        }
      }
      var post := cfg.observe(result);
      log := log + post;
      written := written + |post|;
      assert World(log, memory.data) == Settle(start, x) by {
        assert start.log + pre.events + result.events + post == start.log + (pre.events + result.events) + post;
      }
      for i := 0 to |result.followUps|
        invariant HandleEach(cfg, World(log, memory.data), result.followUps[i..], depth + 1)
                  == HandleEach(cfg, Settle(start, x), result.followUps, depth + 1)
      {
        assert result.followUps[i..][0] == result.followUps[i] && result.followUps[i..][1..] == result.followUps[i + 1..];
        var sub := Handle(result.followUps[i], depth + 1);
        if sub.Raised? {
          return Raised;
        }
      }
      r := Ok(result.response, written);
    }
  }

  // ---------------------------------------------------------------- who is refused

  /** What a command finds under a key: its interview's value before its campaign's, and nothing without a campaign. */
  function Found(m: Memory, cmd: Command, key: string): Option<Value> {
    if cmd.campaign.None? then None
    else if cmd.interview.Some? && cmd.interview.value in m && key in m[cmd.interview.value] then
      Some(m[cmd.interview.value][key])
    else if cmd.campaign.value in m && key in m[cmd.campaign.value] then Some(m[cmd.campaign.value][key])
    else None
  }

  lemma ContextIs(m: Memory, cmd: Command, key: string)
    ensures var ctx := LoadContext(m, cmd);
            Found(m, cmd, key) == if key in ctx then Some(ctx[key]) else None
  {
  }

  function FoundAmount(m: Memory, cmd: Command, key: string): real {
    var v := Found(m, cmd, key);
    if v.Some? && v.value.Num? then v.value.amount else 0.0
  }

  /** The campaign has spent the hard limit's share of its budget; without a budget, of next to nothing. */
  predicate OverBudget(cfg: Config, m: Memory, cmd: Command) {
    var spent, given := FoundAmount(m, cmd, "spent_usd"), FoundAmount(m, cmd, "budget_usd");
    var budget := if given == 0.0 then 0.000000001 else given;
    cmd.campaign.Some? && if budget > 0.0 then spent >= cfg.hard * budget else spent <= cfg.hard * budget
  }

  /** A command is refused if and only if its campaign is over budget. It then leaves one event in the log and nothing
      else: whatever the agents are, none has run. */
  lemma RefusedIffOverBudget(cfg: Config, w: World, cmd: Command, depth: nat)
    requires depth <= 3
    ensures var (w', r) := HandleOne(cfg, w, cmd, depth);
            && (r.Denied? <==> OverBudget(cfg, w.memory, cmd))
            && (r.Denied? ==>
                  var spent := FoundAmount(w.memory, cmd, "spent_usd");
                  var crossed := BudgetThresholdCrossed(cmd.campaign.value, cfg.hard, spent);
                  w' == World(w.log + [crossed], w.memory) && r == Denied(1))
  {
    hide LoadContext, Found, HandleEach, PIIPolicy, EscalationPolicy, WriteOf;
    ContextIs(w.memory, cmd, "spent_usd");
    ContextIs(w.memory, cmd, "budget_usd");
    var ctx := LoadContext(w.memory, cmd);
    var given := Amount(ctx, BUDGET);
    RatioReaches(Amount(ctx, SPENT), if given == 0.0 then 0.000000001 else given, cfg.hard);
    var x := React(cfg, cmd, ctx);
    if OverBudget(cfg, w.memory, cmd) {
      assert HandleEach(cfg, Settle(w, x), [], depth + 1) == (Settle(w, x), false) by { NoMore(cfg, Settle(w, x), depth + 1); }
      assert w.log + x.before + [] == w.log + x.before;
    }
  }

  /** What the policies report of a command that is let through: a warning once the campaign's spending has reached the
      warning share, what was cleaned from its text, and an escalation - judged on the cleaned text. */
  lemma PoliciesReport(cfg: Config, cmd: Command, ctx: Context, c: nat)
    requires cmd.campaign == Some(c) && AllowAll(cfg, cmd, ctx).allowed
    ensures var events := AllowAll(cfg, cmd, ctx).events;
            && (forall t, spent: real :: BudgetThresholdCrossed(c, t, spent) in events <==>
                  t == cfg.warn && spent == Amount(ctx, "spent_usd") && BudgetRatio(ctx) >= cfg.warn)
            && (forall i: nat, fields :: PIIRedacted(c, i, fields) in events <==>
                  cmd.text.Some? && cmd.interview == Some(i) && fields == cfg.redact(cmd.text.value).1 && fields != [])
            && (forall high :: EscalationTriggered(c, high) in events <==>
                  cmd.text.Some? && cfg.severity(CleanText(cfg, cmd.text.value)) == if high then High else Medium)
  {
    hide BudgetRatio;
  }

  /** A text in which nothing is found is passed on as it is. */
  function CleanText(cfg: Config, text: string): string {
    var (cleaned, fields) := cfg.redact(text);
    if fields == [] then text else cleaned
  }

  /** Follow-ups are handled up to three levels deep; a deeper one changes nothing. */
  lemma TooDeepIff(cfg: Config, w: World, cmd: Command, depth: nat)
    ensures HandleOne(cfg, w, cmd, depth).1.TooDeep? <==> depth > 3
    ensures depth > 3 ==> HandleOne(cfg, w, cmd, depth).0 == w
  {
    hide AllowAll, WriteOf, Settle, HandleEach;
  }

  lemma NoMore(cfg: Config, w: World, depth: nat)
    ensures HandleEach(cfg, w, [], depth) == (w, false)
  {
  }

  lemma RatioReaches(spent: real, budget: real, limit: real)
    requires budget != 0.0
    ensures spent / budget >= limit <==> if budget > 0.0 then spent >= limit * budget else spent <= limit * budget
  {
    var ratio := spent / budget;
    assert ratio * budget == spent;
    if budget > 0.0 {
      Grows(limit, ratio, budget);
      Grows(ratio, limit, budget);
    } else {
      Grows(limit, ratio, -budget);
      Grows(ratio, limit, -budget);
    }
  }

  lemma Grows(x: real, y: real, n: real)
    requires n > 0.0
    ensures x < y ==> x * n < y * n
  {
    if x < y {
      assert (y - x) * n > 0.0;
    }
  }

  // ---------------------------------------------------------------- what is persisted

  lemma {:induction false} LogGrows(cfg: Config, w: World, cmd: Command, depth: nat)
    ensures w.log <= HandleOne(cfg, w, cmd, depth).0.log
    decreases 2 * Depth(depth), 0
  {
    hide React, LoadContext;
    if depth <= MAX_FOLLOW_UP_DEPTH {
      var x := React(cfg, cmd, LoadContext(w.memory, cmd));
      LogGrowsEach(cfg, Settle(w, x), x.followUps, depth + 1);
    }
  }

  lemma {:induction false} LogGrowsEach(cfg: Config, w: World, cmds: seq<Command>, depth: nat)
    ensures w.log <= HandleEach(cfg, w, cmds, depth).0.log
    decreases 2 * Depth(depth) + 1, |cmds|
  {
    if cmds != [] {
      LogGrows(cfg, w, cmds[0], depth);
      var (w', r) := HandleOne(cfg, w, cmds[0], depth);
      if !r.Raised? {
        LogGrowsEach(cfg, w', cmds[1..], depth);
      }
    }
  }

  /** The redaction in use is the one of module Pii. */
  ghost predicate IsRedactor(alnum: Pii.AlnumClass, cnId: Pii.Finder, phone: Pii.Finder, f: string -> (string, seq<Pii.Field>)) {
    forall t :: exists emails :: Pii.IsRedaction(alnum, cnId, phone, t, emails, f(t).0, f(t).1)
  }

  /** An agent's respondent turns carry the text of its command. */
  ghost predicate Quotes(a: Agent) {
    forall cmd, ctx | a(cmd, ctx).Some? ::
      forall e | e in a(cmd, ctx).value.events && e.TurnRecorded? && e.role.Respondent? :: cmd.text == Some(e.text)
  }

  /** Observers record no turns. */
  ghost predicate RecordsNoTurns(observe: AgentResult -> seq<Event>) {
    forall r, e | e in observe(r) :: !e.TurnRecorded?
  }

  /** A configuration whose redaction is the one of module Pii, and whose agents and observers are well-behaved. */
  ghost predicate Redacts(alnum: Pii.AlnumClass, cnId: Pii.Finder, phone: Pii.Finder, cfg: Config) {
    && IsRedactor(alnum, cnId, phone, cfg.redact) && RecordsNoTurns(cfg.observe)
    && forall n | n in cfg.agents :: Quotes(cfg.agents[n])
  }

  ghost predicate TurnsAreClean(alnum: Pii.AlnumClass, log: seq<Event>) {
    forall e | e in log && e.TurnRecorded? && e.role.Respondent? :: Pii.Clean(alnum, e.text)
  }

  lemma RedactorCleans(alnum: Pii.AlnumClass, cnId: Pii.Finder, phone: Pii.Finder,
                       f: string -> (string, seq<Pii.Field>), t: string)
    requires IsRedactor(alnum, cnId, phone, f)
    ensures Pii.Clean(alnum, f(t).0) && (f(t).1 == [] ==> f(t).0 == t)
  {
    var emails :| Pii.IsRedaction(alnum, cnId, phone, t, emails, f(t).0, f(t).1);
    Pii.RedactedIsClean(alnum, cnId, phone, t, emails, f(t).0, f(t).1);
  }

  lemma AllowedTextIsClean(alnum: Pii.AlnumClass, cnId: Pii.Finder, phone: Pii.Finder, cfg: Config, cmd: Command,
                           ctx: Context)
    requires IsRedactor(alnum, cnId, phone, cfg.redact)
    ensures var pre := AllowAll(cfg, cmd, ctx);
            && (pre.allowed && pre.command.text.Some? ==> Pii.Clean(alnum, pre.command.text.value))
            && forall e | e in pre.events :: !e.TurnRecorded?
  {
    hide IsRedactor, BudgetRatio, Amount;
    if cmd.text.Some? {
      RedactorCleans(alnum, cnId, phone, cfg.redact, cmd.text.value);
    }
  }

  lemma ReactionIsClean(alnum: Pii.AlnumClass, cnId: Pii.Finder, phone: Pii.Finder, cfg: Config, cmd: Command,
                        ctx: Context)
    requires Redacts(alnum, cnId, phone, cfg)
    ensures var x := React(cfg, cmd, ctx); TurnsAreClean(alnum, x.before) && TurnsAreClean(alnum, x.after)
  {
    hide AllowAll, IsRedactor, WriteOf;
    var pre, name := AllowAll(cfg, cmd, ctx), Route(cmd.kind);
    AllowedTextIsClean(alnum, cnId, phone, cfg, cmd, ctx);
    if pre.allowed && name.Some? && name.value in cfg.agents {
      assert Quotes(cfg.agents[name.value]);
    }
  }

  /** No respondent turn that the harness persists contains an email address - from any command, through any agents
      that quote their command, and through all their follow-ups, also when one of them raises. */
  lemma {:induction false} PersistedTurnsAreClean(alnum: Pii.AlnumClass, cnId: Pii.Finder, phone: Pii.Finder,
                                                  cfg: Config,
                                                  w: World, cmd: Command, depth: nat)
    requires Redacts(alnum, cnId, phone, cfg) && TurnsAreClean(alnum, w.log)
    ensures TurnsAreClean(alnum, HandleOne(cfg, w, cmd, depth).0.log)
    decreases 2 * Depth(depth), 0
  {
    hide React, LoadContext, Redacts;
    if depth <= MAX_FOLLOW_UP_DEPTH {
      var ctx := LoadContext(w.memory, cmd);
      var x := React(cfg, cmd, ctx);
      ReactionIsClean(alnum, cnId, phone, cfg, cmd, ctx);
      PersistedTurnsOfAll(alnum, cnId, phone, cfg, Settle(w, x), x.followUps, depth + 1);
    }
  }

  lemma {:induction false} PersistedTurnsOfAll(alnum: Pii.AlnumClass, cnId: Pii.Finder, phone: Pii.Finder, cfg: Config,
                                               w: World, cmds: seq<Command>, depth: nat)
    requires Redacts(alnum, cnId, phone, cfg) && TurnsAreClean(alnum, w.log)
    ensures TurnsAreClean(alnum, HandleEach(cfg, w, cmds, depth).0.log)
    decreases 2 * Depth(depth) + 1, |cmds|
  {
    hide Redacts;
    if cmds != [] {
      PersistedTurnsAreClean(alnum, cnId, phone, cfg, w, cmds[0], depth);
      var (w', r) := HandleOne(cfg, w, cmds[0], depth);
      if !r.Raised? {
        PersistedTurnsOfAll(alnum, cnId, phone, cfg, w', cmds[1..], depth);
      }
    }
  }

  // ---------------------------------------------------------------- interviews do not interfere

  predicate IsReply(cmd: Command) { cmd.kind.ReplyInInterview? && cmd.campaign.Some? && cmd.interview.Some? }

  /** The interviewer asks for no follow-up commands. */
  ghost predicate NoFollowUps(cfg: Config) {
    InterviewerAgent in cfg.agents ==>
      forall cmd, ctx | cfg.agents[InterviewerAgent](cmd, ctx).Some? ::
          cfg.agents[InterviewerAgent](cmd, ctx).value.followUps == []
  }

  datatype Served = Served(command: Command, events: seq<Event>, response: Response)

  /** A sequence of commands, with what each of them appended and answered. */
  function Serve(cfg: Config, w: World, cmds: seq<Command>): (World, seq<Served>)
    decreases |cmds|
  {
    if cmds == [] then (w, [])
    else
      var (w', r) := HandleOne(cfg, w, cmds[0], 0);
      var events := if |w.log| <= |w'.log| then w'.log[|w.log|..] else [];
      var (end, rest) := Serve(cfg, w', cmds[1..]);
      (end, [Served(cmds[0], events, r)] + rest)
  }

  function Only(cmds: seq<Command>, i: nat): seq<Command> {
    if cmds == [] then []
    else (if cmds[0].interview == Some(i) then [cmds[0]] else []) + Only(cmds[1..], i)
  }

  function ServedTo(served: seq<Served>, i: nat): seq<Served> {
    if served == [] then []
    else (if served[0].command.interview == Some(i) then [served[0]] else []) + ServedTo(served[1..], i)
  }

  /** Interviews and campaigns have different ids. */
  ghost predicate ScopesDiffer(cmds: seq<Command>) {
    forall x, y | x in cmds && y in cmds && x.interview.Some? && y.campaign.Some? :: x.interview.value != y.campaign.value
  }

  ghost predicate SameCampaigns(m: Memory, n: Memory, cmds: seq<Command>) {
    forall cmd | cmd in cmds && cmd.campaign.Some? :: Scope(m, cmd.campaign.value) == Scope(n, cmd.campaign.value)
  }

  /** A reply reads its campaign's scope and its own, and writes at most its own. */
  lemma ReplyIsLocal(cfg: Config, w: World, v: World, cmd: Command)
    requires IsReply(cmd) && NoFollowUps(cfg)
    requires Scope(w.memory, cmd.campaign.value) == Scope(v.memory, cmd.campaign.value)
    requires Scope(w.memory, cmd.interview.value) == Scope(v.memory, cmd.interview.value)
    ensures var (w', r) := HandleOne(cfg, w, cmd, 0);
            var (v', q) := HandleOne(cfg, v, cmd, 0);
            && r == q
            && |w.log| <= |w'.log| && |v.log| <= |v'.log| && w'.log[|w.log|..] == v'.log[|v.log|..]
            && Scope(w'.memory, cmd.interview.value) == Scope(v'.memory, cmd.interview.value)
            && forall k | k != cmd.interview.value :: Scope(w'.memory, k) == Scope(w.memory, k)
  {
    hide React, HandleOne, UpdateMemory, NoFollowUps;
    var ctx := LoadContext(w.memory, cmd);
    assert ctx == LoadContext(v.memory, cmd);
    var x := React(cfg, cmd, ctx);
    ReplyWritesOwn(cfg, cmd, ctx);
    ReplyHandled(cfg, w, cmd);
    ReplyHandled(cfg, v, cmd);
    Suffix(w.log, v.log, x.before, x.after);
    UpdateIsLocal(w.memory, v.memory, cmd.interview.value, x.write);
  }

  lemma ReplyHandled(cfg: Config, w: World, cmd: Command)
    requires IsReply(cmd) && NoFollowUps(cfg)
    ensures var x := React(cfg, cmd, LoadContext(w.memory, cmd)); HandleOne(cfg, w, cmd, 0) == (Settle(w, x), x.response)
  {
    hide AllowAll, LoadContext, Settle, WriteOf;
    var x := React(cfg, cmd, LoadContext(w.memory, cmd));
    assert x.followUps == [];
  }

  /** A reply writes no scope but its own interview's. */
  lemma ReplyWritesOwn(cfg: Config, cmd: Command, ctx: Context)
    requires IsReply(cmd)
    ensures var x := React(cfg, cmd, ctx); x.write.Some? ==> x.write.value.scope == cmd.interview.value
  {
    hide AllowAll;
    StackKeepsScopes(cfg, cmd, ctx);
  }

  lemma UpdateIsLocal(m: Memory, n: Memory, i: nat, w: Option<Write>)
    requires w.Some? ==> w.value.scope == i
    requires Scope(m, i) == Scope(n, i)
    ensures Scope(UpdateMemory(m, w), i) == Scope(UpdateMemory(n, w), i)
    ensures forall k | k != i :: Scope(UpdateMemory(m, w), k) == Scope(m, k)
  {
  }

  lemma StackKeepsScopes(cfg: Config, cmd: Command, ctx: Context)
    ensures var c := AllowAll(cfg, cmd, ctx).command;
            c.campaign == cmd.campaign && c.interview == cmd.interview && c.kind == cmd.kind
  {
  }

  lemma Suffix(a: seq<Event>, b: seq<Event>, x: seq<Event>, y: seq<Event>)
    ensures (a + x + y)[|a|..] == x + y == (b + x + y)[|b|..]
  {
  }

  /** Non-interference: in any interleaving of replies to any interviews, what each interview is answered, what it
      appends to the log - turns, orders and completion - and what its memory holds are what its own replies alone
      would have produced; and no campaign's memory changes. */
  lemma {:induction false} InterviewsDoNotInterfere(cfg: Config, w: World, v: World, cmds: seq<Command>, i: nat)
    requires NoFollowUps(cfg) && ScopesDiffer(cmds) && forall cmd | cmd in cmds :: IsReply(cmd)
    requires Scope(w.memory, i) == Scope(v.memory, i) && SameCampaigns(w.memory, v.memory, cmds)
    ensures ServedTo(Serve(cfg, w, cmds).1, i) == Serve(cfg, v, Only(cmds, i)).1
    ensures Scope(Serve(cfg, w, cmds).0.memory, i) == Scope(Serve(cfg, v, Only(cmds, i)).0.memory, i)
    ensures forall k: nat | (forall cmd | cmd in cmds :: cmd.interview != Some(k)) ::
                Scope(Serve(cfg, w, cmds).0.memory, k) == Scope(w.memory, k)
    decreases |cmds|
  {
    hide HandleOne, NoFollowUps;
    if cmds != [] {
      var cmd, rest := cmds[0], cmds[1..];
      var w' := HandleOne(cfg, w, cmd, 0).0;
      ReplyIsLocal(cfg, w, w, cmd);
      assert forall x | x in rest :: x in cmds;
      forall x | x in rest ensures Scope(w'.memory, x.campaign.value) == Scope(w.memory, x.campaign.value) {
        assert cmd in cmds && x in cmds;
      }
      if cmd.interview == Some(i) {
        ReplyIsLocal(cfg, w, v, cmd);
        ReplyIsLocal(cfg, v, v, cmd);
        var v' := HandleOne(cfg, v, cmd, 0).0;
        forall x | x in rest ensures Scope(v'.memory, x.campaign.value) == Scope(v.memory, x.campaign.value) {
          assert cmd in cmds && x in cmds;
        }
        InterviewsDoNotInterfere(cfg, w', v', rest, i);
        OnlyFirst(cfg, v, cmds, i);
      } else {
        InterviewsDoNotInterfere(cfg, w', v, rest, i);
        assert Only(cmds, i) == Only(rest, i);
      }
      ServedFirst(cfg, w, cmds, i);
    }
  }

  lemma OnlyFirst(cfg: Config, v: World, cmds: seq<Command>, i: nat)
    requires cmds != [] && cmds[0].interview == Some(i)
    ensures Only(cmds, i)[0] == cmds[0] && Only(cmds, i)[1..] == Only(cmds[1..], i)
  {
  }

  lemma ServedFirst(cfg: Config, w: World, cmds: seq<Command>, i: nat)
    requires cmds != []
    ensures var all := Serve(cfg, w, cmds).1;
            all != [] && all[0].command == cmds[0] && all[1..] == Serve(cfg, HandleOne(cfg, w, cmds[0], 0).0, cmds[1..]).1
  {
  }
}
