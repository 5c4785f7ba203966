/** The run store: runs, their event logs and their confirmations, and the reader that streams a log to a browser.

    Ids are drawn by the store at random; here they are parameters, assumed new. Times are left out. */
module RunStore {
  import opened Wrappers
  import opened AgentLog
  import RunProtocol

  type Status = RunProtocol.Status

  datatype Run = Run(org: nat, author: nat, status: Status, messages: seq<Message>, error: Option<string>)

  type Decision = RunProtocol.Decision

  /** A confirmation with the run and the organisation it belongs to. */
  datatype Owned = Owned(run: nat, org: nat, confirmation: RunProtocol.Confirmation)

  datatype Tables = Tables(runs: map<nat, Run>, events: map<nat, seq<RunEvent>>, confirmations: map<nat, Owned>)

  /** The calls that change the store. */
  datatype Op =
    | Create(run: nat, org: nat, author: nat, messages: seq<Message>)
    | Append(run: nat, payload: Payload)
    | Finish(run: nat, status: Status, error: Option<string>)
    | Ask(confirmation: nat, run: nat, org: nat, tool: ToolName, args: string)
    | Resolve(confirmation: nat, org: nat, approved: bool)

  const EMPTY := Tables(map[], map[], map[])

  function Verdict(approved: bool): Decision { if approved then RunProtocol.Approved else RunProtocol.Denied }

  function Asked(run: nat, org: nat, tool: ToolName, args: string): Owned {
    Owned(run, org, RunProtocol.Confirmation(tool, args, RunProtocol.Pending))
  }

  function Decide(o: Owned, approved: bool): Owned { o.(confirmation := o.confirmation.(decision := Verdict(approved))) }

  /** What one call does; a call that raises changes nothing. */
  function Apply(t: Tables, op: Op): Tables {
    match op
    case Create(id, org, author, messages) =>
      t.(runs := t.runs[id := Run(org, author, RunProtocol.Running, messages, None)], events := t.events[id := []])
    case Append(id, payload) =>
      if id !in t.runs || id !in t.events then t
      else t.(events := t.events[id := t.events[id] + [RunEvent(|t.events[id]| + 1, payload)]])
    case Finish(id, status, error) =>
      if status.Running? || id !in t.runs then t
      else t.(runs := t.runs[id := t.runs[id].(status := status, error := error)])
    case Ask(id, run, org, tool, args) =>
      t.(confirmations := t.confirmations[id := Asked(run, org, tool, args)])
    case Resolve(id, org, approved) =>
      if id !in t.confirmations || t.confirmations[id].org != org || !t.confirmations[id].confirmation.decision.Pending? then t
      else t.(confirmations := t.confirmations[id := Decide(t.confirmations[id], approved)])
  }

  predicate Numbered(log: seq<RunEvent>) {
    forall i | 0 <= i < |log| :: log[i].no == i + 1
  }

  predicate Sound(t: Tables) {
    t.events.Keys == t.runs.Keys && forall id | id in t.events :: Numbered(t.events[id])
  }

  /** The events a reader at cursor `after` has not seen. */
  function Rest(log: seq<RunEvent>, after: nat): seq<RunEvent> {
    log[if after <= |log| then after else |log|..]
  }

  lemma RestStep(log: seq<RunEvent>, i: nat, after: nat)
    requires i < |log| && log[i].no == i + 1
    ensures Rest(log[..i + 1], after) == Rest(log[..i], after) + if log[i].no > after then [log[i]] else []
  {
    assert log[..i + 1] == log[..i] + [log[i]];
  }

  /** What is left for a reader that has read a shorter log, and the numbers it is going to see. */
  lemma RestContinues(seen: seq<RunEvent>, log: seq<RunEvent>, after: nat)
    requires Numbered(log) && seen <= log
    ensures var cursor := after + |Rest(seen, after)|;
            && Rest(seen, after) + Rest(log, cursor) == Rest(log, after)
            && forall i | 0 <= i < |Rest(log, cursor)| :: Rest(log, cursor)[i].no == cursor + i + 1
  {
  }

  class Store {
    var runs: map<nat, Run>
    var events: map<nat, seq<RunEvent>>
    var confirmations: map<nat, Owned>

    ghost function Contents(): Tables
      reads this
    {
      Tables(runs, events, confirmations)
    }

    ghost predicate Valid()
      reads this
    {
      Sound(Contents())
    }

    constructor ()
      ensures Valid() && Contents() == EMPTY
    {
      runs, events, confirmations := map[], map[], map[];
    }

    method Create(id: nat, org: nat, author: nat, messages: seq<Message>) returns (run: Run)
      requires Valid() && id !in runs
      modifies this
      ensures Valid() && Contents() == Apply(old(Contents()), Op.Create(id, org, author, messages))
      ensures runs[id] == run && run.status.Running? && events[id] == []
    {
      run := Run(org, author, RunProtocol.Running, messages, None);
      runs := runs[id := run];
      events := events[id := []];
    }

    /** Numbers the payload one past the log's length; an unknown run is a `KeyError`. */
    method Append(id: nat, payload: Payload) returns (event: Option<RunEvent>)
      requires Valid()
      modifies this`events
      ensures Valid() && Contents() == Apply(old(Contents()), Op.Append(id, payload))
      ensures event.Some? <==> id in runs
      ensures event.Some? ==>
                && id in events && event.value == RunEvent(|events[id]|, payload)
                && events[id] == old(events)[id] + [event.value]
    {
      if id !in runs {
        return None;
      }
      var stored := RunEvent(|events[id]| + 1, payload);
      events := events[id := events[id] + [stored]];
      event := Some(stored);
    }

    /** Ends a run; `running` is no terminal status and an unknown run is a `KeyError`. */
    method Finish(id: nat, status: Status, error: Option<string>) returns (ok: bool)
      requires Valid()
      modifies this`runs
      ensures Valid() && Contents() == Apply(old(Contents()), Op.Finish(id, status, error))
      ensures ok <==> !status.Running? && id in old(runs)
    {
      if status.Running? || id !in runs {
        return false;
      }
      runs := runs[id := runs[id].(status := status, error := error)];
      ok := true;
    }

    /** Reads by filtering on the number, and finds exactly the block behind the cursor. */
    method ReadEvents(id: nat, after: nat) returns (found: seq<RunEvent>)
      requires Valid()
      ensures found == if id in events then Rest(events[id], after) else []
    {
      found := [];
      if id in events {
        var log := events[id];
        for i := 0 to |log|
          invariant found == Rest(log[..i], after)
        {
          RestStep(log, i, after);
          if log[i].no > after {
            found := found + [log[i]];
          }
        }
        assert log[..|log|] == log;
      }
    }

    method ListRunning() returns (ids: set<nat>)
      ensures forall id :: id in ids <==> id in runs && runs[id].status.Running?
    {
      ids := set id | id in runs && runs[id].status.Running?;
    }

    method CreateConfirmation(id: nat, run: nat, org: nat, tool: ToolName, args: string)
      requires Valid() && id !in confirmations
      modifies this`confirmations
      ensures Valid() && Contents() == Apply(old(Contents()), Op.Ask(id, run, org, tool, args))
    {
      confirmations := confirmations[id := Asked(run, org, tool, args)];
    }

    /** Another tenant's confirmation does not exist. */
    method GetConfirmation(id: nat, org: nat) returns (c: Option<Owned>)
      ensures c.Some? <==> id in confirmations && confirmations[id].org == org
      ensures c.Some? ==> c.value == confirmations[id]
    {
      if id !in confirmations || confirmations[id].org != org {
        return None;
      }
      c := Some(confirmations[id]);
    }

    /** Decides a pending confirmation; a decided one is returned as it stands. */
    method ResolveConfirmation(id: nat, org: nat, approved: bool) returns (c: Option<Owned>)
      requires Valid()
      modifies this`confirmations
      ensures Valid() && Contents() == Apply(old(Contents()), Op.Resolve(id, org, approved))
      ensures c.Some? <==> id in old(confirmations) && old(confirmations)[id].org == org
      ensures c.Some? ==> id in confirmations && c.value == confirmations[id] && !c.value.confirmation.decision.Pending?
    {
      if id !in confirmations || confirmations[id].org != org {
        return None;
      }
      var current := confirmations[id];
      if !current.confirmation.decision.Pending? {
        return Some(current);
      }
      current := Decide(current, approved);
      confirmations := confirmations[id := current];
      c := Some(current);
    }
  }

  // ---------------------------------------------------------------- histories

  function After(ops: seq<Op>): Tables {
    if ops == [] then EMPTY else Apply(After(ops[..|ops| - 1]), ops[|ops| - 1])
  }

  /** New runs and new confirmations get new ids. */
  predicate FreshIds(ops: seq<Op>) {
    forall i | 0 <= i < |ops| ::
      (ops[i].Create? ==> ops[i].run !in After(ops[..i]).runs)
          && (ops[i].Ask? ==> ops[i].confirmation !in After(ops[..i]).confirmations)
  }

  /** The payloads appended to a run since it was created, in order. */
  function AppendedTo(ops: seq<Op>, id: nat): seq<Payload> {
    if ops == [] then []
    else
      var before, op := ops[..|ops| - 1], ops[|ops| - 1];
      if op.Append? && op.run == id && Created(before, id) then AppendedTo(before, id) + [op.payload] else AppendedTo(before, id)
  }

  predicate Created(ops: seq<Op>, id: nat) {
    exists i :: 0 <= i < |ops| && ops[i].Create? && ops[i].run == id
  }

  /** The log a list of payloads makes. */
  function LogOf(ps: seq<Payload>): (log: seq<RunEvent>)
    ensures |log| == |ps| && Numbered(log) && forall i | 0 <= i < |ps| :: log[i].payload == ps[i]
  {
    seq(|ps|, i requires 0 <= i < |ps| => RunEvent(i + 1, ps[i]))
  }

  /** Conservation: the log of a run holds the payloads appended to it, all of them, in the order of the calls,
      numbered from 1 without a gap - whatever other runs and calls were interleaved. */
  lemma {:induction false} LogIsWhatWasAppended(ops: seq<Op>, id: nat)
    requires FreshIds(ops)
    ensures Sound(After(ops))
    ensures id in After(ops).runs <==> Created(ops, id)
    ensures Created(ops, id) ==> id in After(ops).events && After(ops).events[id] == LogOf(AppendedTo(ops, id))
    ensures !Created(ops, id) ==> AppendedTo(ops, id) == []
  {
    hide Apply, Sound, LogOf, Created;
    if ops == [] {
      assert !Created([], id) by { NothingCreated(id); }
      EmptyIsSound();
    } else {
      var n := |ops| - 1;
      var before, op := ops[..n], ops[n];
      FreshPrefix(ops, n);
      LogIsWhatWasAppended(before, id);
      CreatedLast(ops, id);
      ApplyStep(After(before), op, id, AppendedTo(before, id));
      assert ops[..n] == before && After(ops) == Apply(After(before), op);
    }
  }

  lemma NothingCreated(id: nat)
    ensures !Created([], id)
  {
  }

  lemma EmptyIsSound()
    ensures Sound(EMPTY)
  {
  }

  /** One call, seen from the log of one run. */
  lemma ApplyStep(t: Tables, op: Op, id: nat, ps: seq<Payload>)
    requires Sound(t) && (op.Create? ==> op.run !in t.runs)
    requires id in t.runs ==> id in t.events && t.events[id] == LogOf(ps)
    requires id !in t.runs ==> ps == []
    ensures var u := Apply(t, op);
            && Sound(u)
            && (id in u.runs <==> id in t.runs || (op.Create? && op.run == id))
            && var appended := if op.Append? && op.run == id && id in t.runs then ps + [op.payload] else ps;
               (id in u.runs ==> id in u.events && u.events[id] == LogOf(appended))
  {
    hide LogOf;
    if op.Append? && op.run == id && id in t.runs {
      LogOfStep(ps, op.payload);
    }
    LogOfNone();
  }

  lemma LogOfNone()
    ensures LogOf([]) == []
  {
  }

  lemma LogOfStep(ps: seq<Payload>, p: Payload)
    ensures LogOf(ps + [p]) == LogOf(ps) + [RunEvent(|LogOf(ps)| + 1, p)]
  {
  }

  lemma FreshPrefix(ops: seq<Op>, n: nat)
    requires FreshIds(ops) && n <= |ops|
    ensures FreshIds(ops[..n])
  {
    assert forall i | 0 <= i < n :: ops[..n][..i] == ops[..i];
  }

  lemma CreatedLast(ops: seq<Op>, id: nat)
    requires ops != []
    ensures Created(ops, id) <==> Created(ops[..|ops| - 1], id) || (ops[|ops| - 1].Create? && ops[|ops| - 1].run == id)
  {
    if Created(ops[..|ops| - 1], id) {
      var i :| 0 <= i < |ops| - 1 && ops[..|ops| - 1][i].Create? && ops[..|ops| - 1][i].run == id;
      assert ops[i].Create? && ops[i].run == id;
    }
  }

  /** The last accepted ending of a run. */
  function Ending(ops: seq<Op>, id: nat): Status {
    if ops == [] then RunProtocol.Running
    else
      var before, op := ops[..|ops| - 1], ops[|ops| - 1];
      if op.Finish? && op.run == id && !op.status.Running? && Created(before, id) then op.status else Ending(before, id)
  }

  /** A restart picks up exactly the runs that were created and never ended. */
  lemma {:induction false} RunningIffNeverEnded(ops: seq<Op>, id: nat)
    requires FreshIds(ops)
    ensures Created(ops, id) <==> id in After(ops).runs
    ensures Created(ops, id) ==> After(ops).runs[id].status == Ending(ops, id)
    ensures !Created(ops, id) ==> Ending(ops, id).Running?
    ensures Created(ops, id) && (forall i | 0 <= i < |ops| :: !(ops[i].Finish? && ops[i].run == id)) ==>
                After(ops).runs[id].status.Running?
  {
    LogIsWhatWasAppended(ops, id);
    if ops != [] {
      var n := |ops| - 1;
      FreshPrefix(ops, n);
      RunningIffNeverEnded(ops[..n], id);
      CreatedLast(ops, id);
      assert forall i | 0 <= i < n :: ops[..n][i] == ops[i];
    }
  }

  /** The error of the last accepted ending. */
  function EndingError(ops: seq<Op>, id: nat): Option<string> {
    if ops == [] then None
    else
      var before, op := ops[..|ops| - 1], ops[|ops| - 1];
      if op.Finish? && op.run == id && !op.status.Running? then op.error else EndingError(before, id)
  }

  /** A run keeps what it was created with - its owner, its author and its messages - and carries its last accepted
      ending with the error given there. */
  lemma {:induction false} RunKeepsItsData(ops: seq<Op>, k: nat)
    requires FreshIds(ops) && k < |ops| && ops[k].Create?
    ensures var op, later := ops[k], ops[k + 1..];
            && op.run in After(ops).runs
            && After(ops).runs[op.run]
               == Run(op.org, op.author, After(ops).runs[op.run].status, op.messages, EndingError(later, op.run))
    decreases |ops|
  {
    hide Apply;
    var n := |ops| - 1;
    if k == n {
      CreateStep(After(ops[..n]), ops[n]);
      assert ops[k + 1..] == [];
    } else {
      FreshPrefix(ops, n);
      RunKeepsItsData(ops[..n], k);
      var later := ops[k + 1..];
      assert ops[..n][k + 1..] == later[..|later| - 1] && later[|later| - 1] == ops[n];
      RunStep(After(ops[..n]), ops[n], ops[k].run);
      assert After(ops) == Apply(After(ops[..n]), ops[n]);
    }
  }

  lemma CreateStep(t: Tables, op: Op)
    requires op.Create?
    ensures op.run in Apply(t, op).runs
    ensures Apply(t, op).runs[op.run] == Run(op.org, op.author, RunProtocol.Running, op.messages, None)
  {
  }

  lemma RunStep(t: Tables, op: Op, id: nat)
    requires id in t.runs && (op.Create? ==> op.run != id)
    ensures id in Apply(t, op).runs
    ensures var u := Apply(t, op).runs[id];
            if op.Finish? && op.run == id && !op.status.Running? then u == t.runs[id].(status := op.status, error := op.error)
            else u == t.runs[id]
  {
  }

  /** The answer the first call of the right tenant gave, if any. */
  function FirstAnswer(ops: seq<Op>, c: nat, org: nat): Decision {
    if ops == [] then RunProtocol.Pending
    else
      Answered(FirstAnswer(ops[..|ops| - 1], c, org), ops[|ops| - 1], c, org)
  }

  /** A confirmation carries the first answer its own tenant gave after it was asked; no other call, no later
      answer and no other tenant changes it. */
  lemma {:induction false} FirstAnswerStands(ops: seq<Op>, k: nat)
    requires FreshIds(ops) && k < |ops| && ops[k].Ask?
    ensures var op := ops[k];
            && op.confirmation in After(ops).confirmations
            && After(ops).confirmations[op.confirmation]
               == Owned(op.run, op.org, RunProtocol.Confirmation(op.tool, op.args,
                   FirstAnswer(ops[k + 1..], op.confirmation, op.org)))
    decreases |ops|
  {
    hide Apply;
    var n := |ops| - 1;
    if k == n {
      AskStep(After(ops[..n]), ops[n]);
      assert ops[k + 1..] == [];
    } else {
      FreshPrefix(ops, n);
      FirstAnswerStands(ops[..n], k);
      var later := ops[k + 1..];
      assert ops[..n][k + 1..] == later[..|later| - 1] && later[|later| - 1] == ops[n];
      var c, org := ops[k].confirmation, ops[k].org;
      AnswerStep(After(ops[..n]), ops[n], c);
      assert FirstAnswer(later, c, org) == Answered(FirstAnswer(later[..|later| - 1], c, org), ops[n], c, org);
      assert After(ops) == Apply(After(ops[..n]), ops[n]);
    }
  }

  /** What one call makes of an answer so far. */
  function Answered(before: Decision, op: Op, c: nat, org: nat): Decision {
    if before.Pending? && op.Resolve? && op.confirmation == c && op.org == org then
      if op.approved then RunProtocol.Approved else RunProtocol.Denied
    else before
  }

  lemma AskStep(t: Tables, op: Op)
    requires op.Ask?
    ensures op.confirmation in Apply(t, op).confirmations
    ensures Apply(t, op).confirmations[op.confirmation] == Asked(op.run, op.org, op.tool, op.args)
  {
  }

  lemma AnswerStep(t: Tables, op: Op, c: nat)
    requires c in t.confirmations && (op.Ask? ==> op.confirmation != c)
    ensures c in Apply(t, op).confirmations
    ensures var o := t.confirmations[c];
            Apply(t, op).confirmations[c]
                == o.(confirmation := o.confirmation.(decision := Answered(o.confirmation.decision, op, c, o.org)))
  {
  }

  // ---------------------------------------------------------------- the reader

  /** One round of the reader: where the history stood when it read the events and when it then read the run. */
  datatype Poll = Poll(readAt: nat, checkedAt: nat, disconnected: bool)

  predicate InOrder(polls: seq<Poll>, n: nat) {
    && (forall i | 0 <= i < |polls| :: polls[i].readAt <= polls[i].checkedAt <= n)
    && (forall i, j | 0 <= i < j < |polls| :: polls[i].checkedAt <= polls[j].readAt)
  }

  function EventsOf(ops: seq<Op>, id: nat): seq<RunEvent> {
    if id in After(ops).events then After(ops).events[id] else []
  }

  /** Histories only ever extend a run's log. */
  lemma {:induction false} LogsGrow(ops: seq<Op>, id: nat, m: nat, n: nat)
    requires FreshIds(ops) && m <= n <= |ops|
    ensures EventsOf(ops[..m], id) <= EventsOf(ops[..n], id) && Numbered(EventsOf(ops[..n], id))
    decreases n - m
  {
    hide Apply, Numbered, Created, AppendedTo, FreshIds, LogOf;
    FreshPrefix(ops, n);
    SoundAfter(ops[..n], id);
    if m < n {
      LogsGrow(ops, id, m, n - 1);
      var prefix := ops[..n];
      assert prefix[..n - 1] == ops[..n - 1] && prefix[n - 1] == ops[n - 1];
      FreshPrefix(ops, n - 1);
      FreshAt(ops, n - 1);
      AppendOnly(After(ops[..n - 1]), ops[n - 1], id);
      assert After(prefix) == Apply(After(prefix[..n - 1]), prefix[n - 1]);
    }
  }

  lemma FreshAt(ops: seq<Op>, k: nat)
    requires FreshIds(ops) && k < |ops|
    ensures ops[k].Create? ==> ops[k].run !in After(ops[..k]).runs
    ensures Sound(After(ops[..k]))
  {
    FreshPrefix(ops, k);
    LogIsWhatWasAppended(ops[..k], 0);
  }

  lemma SoundAfter(ops: seq<Op>, id: nat)
    requires FreshIds(ops)
    ensures Numbered(EventsOf(ops, id))
  {
    LogIsWhatWasAppended(ops, id);
  }

  lemma AppendOnly(t: Tables, op: Op, id: nat)
    requires Sound(t) && (op.Create? ==> op.run !in t.runs)
    ensures (if id in t.events then t.events[id] else []) <= (if id in Apply(t, op).events then Apply(t, op).events[id] else [])
  {
  }

  predicate Live(ops: seq<Op>, id: nat) {
    id in After(ops).runs && After(ops).runs[id].status.Running?
  }

  predicate MayReturn(ops: seq<Op>, id: nat, follow: bool, last: Poll)
    requires last.checkedAt <= |ops|
  {
    !follow || last.disconnected || !Live(ops[..last.checkedAt], id)
  }

  /** Reads, delivers, and goes on while the run is live, the client stays and it asked to follow. Whatever was
      appended in between, it delivers the block from its cursor to the end of its last read: in order, once
      each, and without a gap. */
  method StreamRun(ops: seq<Op>, id: nat, after: nat, follow: bool, polls: seq<Poll>)
    returns (delivered: seq<RunEvent>, cursor: nat, rounds: nat)
    requires FreshIds(ops) && InOrder(polls, |ops|)
    ensures rounds <= |polls|
    ensures delivered == if rounds == 0 then [] else Rest(EventsOf(ops[..polls[rounds - 1].readAt], id), after)
    ensures delivered != [] ==> cursor == delivered[|delivered| - 1].no
    ensures cursor == after + |delivered|
    ensures rounds < |polls| ==> rounds > 0 && MayReturn(ops, id, follow, polls[rounds - 1])
  {
    hide Numbered, EventsOf, Live, Rest, FreshIds, After;
    delivered, cursor, rounds := [], after, 0;
    ghost var seen, readTo: nat := EventsOf(ops[..0], id), 0;
    NothingYet(ops, id, after);
    while rounds < |polls|
      invariant rounds <= |polls| && readTo <= |ops|
      invariant if rounds == 0 then delivered == [] && readTo == 0 else readTo == polls[rounds - 1].readAt
      invariant seen == EventsOf(ops[..readTo], id)
      invariant delivered == Rest(seen, after) && cursor == after + |delivered|
      invariant delivered != [] ==> cursor == delivered[|delivered| - 1].no
    {
      var poll := polls[rounds];
      assert readTo <= poll.readAt <= poll.checkedAt <= |ops| by {
        assert rounds > 0 ==> polls[rounds - 1].readAt <= polls[rounds - 1].checkedAt <= poll.readAt;
      }
      LogsGrow(ops, id, readTo, poll.readAt);
      var log := EventsOf(ops[..poll.readAt], id);
      RestContinues(seen, log, after);
      var events := Rest(log, cursor);
      cursor := LastSeen(events, cursor);
      delivered := delivered + events;
      seen, readTo := log, poll.readAt;
      rounds := rounds + 1;
      if !Live(ops[..poll.checkedAt], id) || !follow || poll.disconnected {
        return;
      }
    }
  }

  /** Moves the cursor over the events sent. */
  method LastSeen(events: seq<RunEvent>, start: nat) returns (cursor: nat)
    requires forall i | 0 <= i < |events| :: events[i].no == start + i + 1
    ensures cursor == start + |events| && (events != [] ==> cursor == events[|events| - 1].no)
  {
    cursor := start;
    for i := 0 to |events|
      invariant cursor == start + i
    {
      cursor := events[i].no;
    }
  }

  lemma NothingYet(ops: seq<Op>, id: nat, after: nat)
    ensures EventsOf(ops[..0], id) == [] && Rest([], after) == []
  {
  }

  /** Reconnecting at the last cursor leaves no gap and repeats nothing, from any start cursor - even one beyond
      the end of the log. */
  lemma ReconnectIsSeamless(ops: seq<Op>, id: nat, after: nat, m: nat, n: nat)
    requires FreshIds(ops) && m <= n <= |ops|
    ensures var first := Rest(EventsOf(ops[..m], id), after);
            first + Rest(EventsOf(ops[..n], id), after + |first|) == Rest(EventsOf(ops[..n], id), after)
  {
    LogsGrow(ops, id, m, n);
    RestContinues(EventsOf(ops[..m], id), EventsOf(ops[..n], id), after);
  }
}
