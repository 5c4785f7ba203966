/** The durable run protocol as a transition system: one driver, one append-only log, confirmations decided by a
    human at any moment, crashes at any moment, and a restart that consults nothing but the log.

    Durable are the log, the run's status and the confirmations; the driver's own state dies with it. `executed`
    is the history of side effects: the log positions of the calls whose handlers were started, in order. */
module RunProtocol {
  import opened AgentLog
  import opened ChatLoop

  datatype Status = Running | Completed | Incomplete | Failed

  datatype Decision = Pending | Approved | Denied

  datatype Confirmation = Confirmation(tool: ToolName, args: string, decision: Decision)

  datatype Request = Request(id: string, name: ToolName, args: string)

  /** What became of one call at the gate: refused, or announced at a log position. */
  datatype Slot = Refused | Admitted(pos: nat)

  /** The stages of one confirmation as the driver sees it. */
  datatype GateStage = NoGate | Created(c: nat) | Waiting(c: nat) | Decided(c: nat, ok: bool) | Cleared(c: nat)

  datatype TurnState = TurnState(start: nat, calls: seq<Request>, slots: seq<Slot>)

  datatype Driver =
    | Down
    | Idle
    | Announcing(turn: TurnState, stage: GateStage)
    | Working(turn: TurnState, started: set<nat>, finished: set<nat>)
    | Reporting(turn: TurnState, reported: nat)
    | Closing(result: Status)

  datatype World = World(
    log: seq<RunEvent>, status: Status, confirmations: map<nat, Confirmation>, executed: seq<nat>,
    driver: Driver, canConfirm: bool)

  datatype Step =
    | AskModel(text: string, calls: seq<Request>)
    | EndRun(text: string, ending: Payload, result: Status)
    | NoteEvent(kind: NoticeKind)
    | CreateConfirmation(c: nat)
    | LogRequest
    | Poll
    | TimeOut
    | LogDecision
    | RefuseWithoutStore
    | Admit
    | StartWork
    | Execute(i: nat)
    | Complete(i: nat)
    | Gather
    | Report(outcome: Payload)
    | NextTurn
    | DriverError(message: string)
    | FinishRun
    | Crash
    | Resume
    | RefuseResume(text: string)
    | Resolve(c: nat, approved: bool)

  function Append(w: World, p: Payload): World {
    w.(log := w.log + [RunEvent(|w.log| + 1, p)])
  }

  function AppendText(w: World, text: string): World { if text == "" then w else Append(w, Text(text)) }

  predicate DistinctIds(calls: seq<Request>) {
    && (forall i | 0 <= i < |calls| :: calls[i].id != "")
    && (forall i, j | 0 <= i < j < |calls| :: calls[i].id != calls[j].id)
  }

  /** The call the gate loop is at. */
  predicate AtCall(d: Driver) { d.Announcing? && |d.turn.slots| < |d.turn.calls| }

  function Current(d: Driver): Request
    requires AtCall(d)
  {
    d.turn.calls[|d.turn.slots|]
  }

  function AddSlot(d: Driver, s: Slot): Driver
    requires d.Announcing?
  {
    Announcing(d.turn.(slots := d.turn.slots + [s]), NoGate)
  }

  predicate EndsRun(p: Payload, result: Status) {
    (p.Done? && (result == Completed || result == Incomplete)) || (p.Error? && result == Failed)
  }

  predicate AllFinished(d: Driver)
    requires d.Working?
  {
    forall i | 0 <= i < |d.turn.slots| && d.turn.slots[i].Admitted? :: i in d.finished
  }

  /** One step of the system. The ids of one model turn are assumed distinct. */
  ghost predicate Next(w: World, s: Step, v: World) {
    var d := w.driver;
    match s
    case AskModel(text, calls) =>
      && d.Idle? && calls != [] && DistinctIds(calls)
      && v == AppendText(w, text).(driver := Announcing(TurnState(|AppendText(w, text).log|, calls, []), NoGate))
    case EndRun(text, ending, result) =>
      d.Idle? && EndsRun(ending, result) && v == Append(AppendText(w, text), ending).(driver := Closing(result))
    case NoteEvent(kind) =>
      (d.Idle? || d.Reporting?) && v == Append(w, Notice(kind))
    case CreateConfirmation(c) =>
      && AtCall(d) && d.stage.NoGate? && Gated(Current(d).name) && w.canConfirm && c !in w.confirmations
      && v == w.(confirmations := w.confirmations[c := Confirmation(Current(d).name, Current(d).args, Pending)],
                 driver := d.(stage := Created(c)))
    case LogRequest =>
      && AtCall(d) && d.stage.Created?
      && v == Append(w, ConfirmRequest(d.stage.c, Current(d).id, Current(d).name,
                                       Current(d).args)).(driver := d.(stage := Waiting(d.stage.c)))
    case Poll =>
      && AtCall(d) && d.stage.Waiting? && d.stage.c in w.confirmations && !w.confirmations[d.stage.c].decision.Pending?
      && v == w.(driver := d.(stage := Decided(d.stage.c, w.confirmations[d.stage.c].decision.Approved?)))
    case TimeOut =>
      AtCall(d) && d.stage.Waiting? && v == w.(driver := d.(stage := Decided(d.stage.c, false)))
    case LogDecision =>
      && AtCall(d) && d.stage.Decided?
      && v == Append(w, ConfirmationResult(d.stage.c, Current(d).id, Current(d).name, d.stage.ok)).(
                driver := if d.stage.ok then d.(stage := Cleared(d.stage.c)) else AddSlot(d, Refused))
    case RefuseWithoutStore =>
      AtCall(d) && d.stage.NoGate? && Gated(Current(d).name) && !w.canConfirm && v == w.(driver := AddSlot(d, Refused))
    case Admit =>
      && AtCall(d) && (d.stage.Cleared? || (d.stage.NoGate? && !Gated(Current(d).name)))
      && v == Append(w, ToolCall(Current(d).id, Current(d).name, Current(d).args)).(driver := AddSlot(d, Admitted(|w.log|)))
    case StartWork =>
      d.Announcing? && |d.turn.slots| == |d.turn.calls| && d.stage.NoGate? && v == w.(driver := Working(d.turn, {}, {}))
    case Execute(i) =>
      && d.Working? && i < |d.turn.slots| && d.turn.slots[i].Admitted? && i !in d.started
      && v == w.(executed := w.executed + [d.turn.slots[i].pos], driver := d.(started := d.started + {i}))
    case Complete(i) =>
      d.Working? && i in d.started && v == w.(driver := d.(finished := d.finished + {i}))
    case Gather =>
      d.Working? && AllFinished(d) && v == w.(driver := Reporting(d.turn, 0))
    case Report(outcome) =>
      && d.Reporting? && d.reported < |d.turn.slots| && d.reported < |d.turn.calls| && IsOutcome(outcome)
      && outcome.callId == d.turn.calls[d.reported].id && outcome.name == d.turn.calls[d.reported].name
      && (d.turn.slots[d.reported].Refused? ==> outcome.ToolError?)
      && v == Append(w, outcome).(driver := d.(reported := d.reported + 1))
    case NextTurn =>
      d.Reporting? && d.reported == |d.turn.slots| && v == w.(driver := Idle)
    case DriverError(message) =>
      d != Down && !d.Closing? && v == Append(w, Error(message)).(driver := Closing(Failed))
    case FinishRun =>
      d.Closing? && v == w.(status := d.result, driver := Down)
    case Crash =>
      d != Down && v == w.(driver := Down)
    case Resume =>
      d.Down? && w.status.Running? && !Uncertain(w.log) && v == w.(driver := Idle)
    case RefuseResume(text) =>
      && d.Down? && w.status.Running? && Uncertain(w.log)
      && v == Append(w, Done(text, UncertainAfterRestart)).(driver := Closing(Incomplete))
    case Resolve(c, approved) =>
      && c in w.confirmations
      && v == if w.confirmations[c].decision.Pending?
              then w.(confirmations := w.confirmations[c := w.confirmations[c].(decision := if approved then Approved
                  else Denied)])
              else w
  }

  ghost predicate Init(w: World) {
    w.log == [] && w.status.Running? && w.confirmations == map[] && w.executed == [] && w.driver.Idle?
  }

  // ---------------------------------------------------------------- the invariant

  predicate CallAt(log: seq<RunEvent>, p: nat) { p < |log| && log[p].payload.ToolCall? }

  ghost predicate SameCall(log: seq<RunEvent>, p: nat, q: nat) {
    CallAt(log, p) && CallAt(log, q) && log[p].payload.callId == log[q].payload.callId
  }

  /** `q` is the outcome of this very call: same id, and the id was not called again in between. */
  ghost predicate OwnOutcome(log: seq<RunEvent>, p: nat, q: nat) {
    && CallAt(log, p) && p < q < |log|
    && IsOutcome(log[q].payload) && log[q].payload.callId == log[p].payload.callId
    && forall m: nat | p < m < q :: !SameCall(log, p, m)
  }

  ghost predicate SettledBefore(log: seq<RunEvent>, p: nat, n: nat) {
    exists q: nat :: q < n && OwnOutcome(log, p, q)
  }

  ghost predicate Settled(log: seq<RunEvent>, p: nat) { SettledBefore(log, p, |log|) }

  /** An id is called again only after its previous call was settled; every call carries an id. */
  ghost predicate Serial(log: seq<RunEvent>) {
    && (forall p: nat | CallAt(log, p) :: log[p].payload.callId != "")
    && (forall p: nat, q: nat | p < q && SameCall(log, p, q) :: SettledBefore(log, p, q))
  }

  /** Every logged call is settled, but for those of the current turn still to be reported. */
  ghost predicate SettledBut(log: seq<RunEvent>, slots: seq<Slot>, from: nat) {
    forall p: nat | CallAt(log, p) :: Settled(log, p) || exists i: nat :: from <= i < |slots| && slots[i] == Admitted(p)
  }

  ghost predicate TurnOk(log: seq<RunEvent>, t: TurnState) {
    && |t.slots| <= |t.calls| && t.start <= |log| && DistinctIds(t.calls)
    && (forall i: nat | i < |t.slots| && t.slots[i].Admitted? ::
          t.start <= t.slots[i].pos < |log| && log[t.slots[i].pos].payload
              == ToolCall(t.calls[i].id, t.calls[i].name, t.calls[i].args))
    && (forall p: nat | t.start <= p && CallAt(log, p) :: exists i: nat :: i < |t.slots| && t.slots[i] == Admitted(p))
  }

  ghost predicate DriverOk(w: World) {
    match w.driver
    case Down => true
    case Closing(_) => true
    case Idle => SettledBut(w.log, [], 0)
    case Announcing(t, _) =>
      TurnOk(w.log, t) && SettledBut(w.log, t.slots, 0) && forall p | p in w.executed :: p < t.start
    case Working(t, started, _) =>
      && TurnOk(w.log, t) && SettledBut(w.log, t.slots, 0)
      && forall i: nat | i < |t.slots| && t.slots[i].Admitted? && i !in started :: t.slots[i].pos !in w.executed
    case Reporting(t, reported) =>
      TurnOk(w.log, t) && reported <= |t.slots| && SettledBut(w.log, t.slots, reported)
  }

  ghost predicate ExecutedOk(w: World) {
    && (forall p | p in w.executed :: CallAt(w.log, p))
    && (forall i, j | 0 <= i < j < |w.executed| :: w.executed[i] != w.executed[j])
  }

  /** A gated call in the log directly follows the approving decision of its own confirmation. */
  ghost predicate ApprovedAt(w: World, p: nat)
    requires CallAt(w.log, p)
  {
    && p > 0
    && var call, before := w.log[p].payload, w.log[p - 1].payload;
    && before.ConfirmationResult? && before.approved && before.callId == call.callId && before.name == call.name
    && before.confirmationId in w.confirmations
    && w.confirmations[before.confirmationId] == Confirmation(call.name, call.args, Approved)
  }

  ghost predicate DecisionOf(log: seq<RunEvent>, c: nat, i: nat) {
    i < |log| && log[i].payload.ConfirmationResult? && log[i].payload.confirmationId == c
  }

  ghost predicate StageOk(w: World) {
    var d := w.driver;
    AtCall(d) && !d.stage.NoGate? ==>
      && var c := d.stage.c;
      && c in w.confirmations && w.confirmations[c].tool == Current(d).name && w.confirmations[c].args == Current(d).args
      && (!d.stage.Cleared? ==> forall i: nat :: !DecisionOf(w.log, c, i))
      && (d.stage.Decided? && d.stage.ok ==> w.confirmations[c].decision.Approved?)
      && (d.stage.Cleared? ==>
            && w.confirmations[c].decision.Approved?
            && |w.log| > 0 && w.log[|w.log| - 1].payload == ConfirmationResult(c, Current(d).id, Current(d).name, true))
  }

  ghost predicate GateOk(w: World) {
    && (forall p: nat | CallAt(w.log, p) && Gated(w.log[p].payload.name) :: ApprovedAt(w, p))
    && (forall c: nat, i: nat | DecisionOf(w.log, c, i) :: c in w.confirmations)
    && (forall c: nat, i: nat, j: nat | DecisionOf(w.log, c, i) && DecisionOf(w.log, c, j) :: i == j)
    && StageOk(w)
  }

  ghost predicate Inv(w: World) {
    Serial(w.log) && DriverOk(w) && ExecutedOk(w) && GateOk(w)
  }

  // ---------------------------------------------------------------- appending

  lemma OwnOutcomeGrows(log: seq<RunEvent>, e: RunEvent, p: nat, q: nat)
    requires q < |log|
    ensures OwnOutcome(log, p, q) <==> OwnOutcome(log + [e], p, q)
  {
    assert forall m: nat | m < |log| :: CallAt(log, m) == CallAt(log + [e], m);
    assert forall m: nat | p < m < q :: SameCall(log, p, m) == SameCall(log + [e], p, m);
  }

  lemma SettledGrows(log: seq<RunEvent>, e: RunEvent, p: nat, n: nat)
    requires n <= |log| && SettledBefore(log, p, n)
    ensures SettledBefore(log + [e], p, n) && Settled(log + [e], p)
  {
    var q: nat :| q < n && OwnOutcome(log, p, q);
    OwnOutcomeGrows(log, e, p, q);
  }

  /** Anything but a call keeps the log serial. */
  lemma SerialGrows(log: seq<RunEvent>, e: RunEvent)
    requires Serial(log) && !e.payload.ToolCall?
    ensures Serial(log + [e])
  {
    var l := log + [e];
    forall p: nat, q: nat | p < q && SameCall(l, p, q) ensures SettledBefore(l, p, q) {
      assert SameCall(log, p, q);
      SettledGrows(log, e, p, q);
    }
    forall p: nat | CallAt(l, p) ensures l[p].payload.callId != "" {
      assert CallAt(log, p);
    }
  }

  lemma SettledButGrows(log: seq<RunEvent>, e: RunEvent, slots: seq<Slot>, from: nat)
    requires SettledBut(log, slots, from) && !e.payload.ToolCall?
    ensures SettledBut(log + [e], slots, from)
  {
    forall p: nat | CallAt(log + [e], p)
      ensures Settled(log + [e], p) || exists i: nat :: from <= i < |slots| && slots[i] == Admitted(p)
    {
      assert CallAt(log, p);
      if Settled(log, p) {
        SettledGrows(log, e, p, |log|);
      }
    }
  }

  lemma TurnOkGrows(log: seq<RunEvent>, e: RunEvent, t: TurnState)
    requires TurnOk(log, t) && !e.payload.ToolCall?
    ensures TurnOk(log + [e], t)
  {
    forall p: nat | t.start <= p && CallAt(log + [e], p) ensures exists i: nat :: i < |t.slots| && t.slots[i] == Admitted(p) {
      assert CallAt(log, p);
    }
  }

  /** Appending anything but a call keeps the whole invariant, except for what a decision adds to the gate. */
  lemma NeutralAppend(w: World, p: Payload)
    requires Inv(w) && !p.ToolCall? && !p.ConfirmationResult?
    requires !(AtCall(w.driver) && w.driver.stage.Cleared?)
    ensures Inv(Append(w, p))
  {
    var e := RunEvent(|w.log| + 1, p);
    var v := Append(w, p);
    SerialGrows(w.log, e);
    assert DriverOk(v) by {
      match w.driver
      case Idle => SettledButGrows(w.log, e, [], 0);
      case Announcing(t, _) => TurnOkGrows(w.log, e, t); SettledButGrows(w.log, e, t.slots, 0);
      case Working(t, _, _) => TurnOkGrows(w.log, e, t); SettledButGrows(w.log, e, t.slots, 0);
      case Reporting(t, reported) => TurnOkGrows(w.log, e, t); SettledButGrows(w.log, e, t.slots, reported);
      case _ =>
    }
    assert ExecutedOk(v) by {
      forall q | q in v.executed ensures CallAt(v.log, q) { assert CallAt(w.log, q); }
    }
    GateGrows(w, p);
  }

  lemma GateGrows(w: World, p: Payload)
    requires GateOk(w) && !p.ToolCall? && !p.ConfirmationResult?
    requires !(AtCall(w.driver) && w.driver.stage.Cleared?)
    ensures GateOk(Append(w, p))
  {
    var v := Append(w, p);
    assert forall c: nat, i: nat :: DecisionOf(v.log, c, i) <==> DecisionOf(w.log, c, i);
    forall q: nat | CallAt(v.log, q) && Gated(v.log[q].payload.name) ensures ApprovedAt(v, q) {
      assert CallAt(w.log, q) && ApprovedAt(w, q);
    }
  }

  /** Leaving the turn forgets nothing durable. */
  lemma DriverGone(w: World, d: Driver)
    requires Inv(w) && (d.Down? || d.Closing?)
    ensures Inv(w.(driver := d))
  {
    var v := w.(driver := d);
    forall q: nat | CallAt(v.log, q) && Gated(v.log[q].payload.name) ensures ApprovedAt(v, q) {
      assert ApprovedAt(w, q);
    }
  }

  lemma SameGate(w: World, v: World)
    requires GateOk(w) && v.log == w.log && v.confirmations == w.confirmations && StageOk(v)
    ensures GateOk(v)
  {
    forall q: nat | CallAt(v.log, q) && Gated(v.log[q].payload.name) ensures ApprovedAt(v, q) {
      assert ApprovedAt(w, q);
    }
  }

  // ---------------------------------------------------------------- every step keeps the invariant

  lemma AskModelKeeps(w: World, s: Step, v: World)
    requires Inv(w) && s.AskModel? && Next(w, s, v)
    ensures Inv(v)
  {
    if s.text != "" {
      NeutralAppend(w, Text(s.text));
    }
    var u := AppendText(w, s.text);
    assert Inv(u) && SettledBut(u.log, [], 0);
    var t := TurnState(|u.log|, s.calls, []);
    assert TurnOk(u.log, t);
    forall p | p in v.executed ensures p < t.start { assert CallAt(u.log, p); }
    assert t.slots == [];
    SameGate(u, v);
  }

  lemma EndRunKeeps(w: World, s: Step, v: World)
    requires Inv(w) && s.EndRun? && Next(w, s, v)
    ensures Inv(v)
  {
    if s.text != "" {
      NeutralAppend(w, Text(s.text));
    }
    NeutralAppend(AppendText(w, s.text), s.ending);
    DriverGone(Append(AppendText(w, s.text), s.ending), Closing(s.result));
  }

  lemma CreateKeeps(w: World, s: Step, v: World)
    requires Inv(w) && s.CreateConfirmation? && Next(w, s, v)
    ensures Inv(v)
  {
    forall q: nat | CallAt(v.log, q) && Gated(v.log[q].payload.name) ensures ApprovedAt(v, q) {
      assert ApprovedAt(w, q);
    }
    var c := s.c;
    assert c !in w.confirmations;
    assert forall i: nat :: !DecisionOf(w.log, c, i);
  }

  lemma LogRequestKeeps(w: World, s: Step, v: World)
    requires Inv(w) && s.LogRequest? && Next(w, s, v)
    ensures Inv(v)
  {
    var d := w.driver;
    var p := ConfirmRequest(d.stage.c, Current(d).id, Current(d).name, Current(d).args);
    NeutralAppend(w, p);
    var u := Append(w, p);
    SameGate(u, v);
  }

  lemma DecideKeeps(w: World, s: Step, v: World)
    requires Inv(w) && (s.Poll? || s.TimeOut?) && Next(w, s, v)
    ensures Inv(v)
  {
    SameGate(w, v);
  }

  lemma LogDecisionKeeps(w: World, s: Step, v: World)
    requires Inv(w) && s.LogDecision? && Next(w, s, v)
    ensures Inv(v)
  {
    var d := w.driver;
    var c := d.stage.c;
    var e := RunEvent(|w.log| + 1, ConfirmationResult(c, Current(d).id, Current(d).name, d.stage.ok));
    assert v.log == w.log + [e];
    SerialGrows(w.log, e);
    TurnOkGrows(w.log, e, d.turn);
    SettledButGrows(w.log, e, d.turn.slots, 0);
    assert DriverOk(v) by {
      if !d.stage.ok {
        RefusedSlotKeeps(v.log, d.turn);
      }
    }
    forall q | q in v.executed ensures CallAt(v.log, q) { assert CallAt(w.log, q); }
    forall k: nat, i: nat | DecisionOf(v.log, k, i) ensures DecisionOf(w.log, k, i) || (k == c && i == |w.log|) {}
    forall q: nat | CallAt(v.log, q) && Gated(v.log[q].payload.name) ensures ApprovedAt(v, q) {
      assert CallAt(w.log, q) && ApprovedAt(w, q);
    }
  }

  lemma RefusedSlotKeeps(log: seq<RunEvent>, t: TurnState)
    requires TurnOk(log, t) && SettledBut(log, t.slots, 0) && |t.slots| < |t.calls|
    ensures var t' := t.(slots := t.slots + [Refused]); TurnOk(log, t') && SettledBut(log, t'.slots, 0)
  {
    var t' := t.(slots := t.slots + [Refused]);
    forall p: nat | t.start <= p && CallAt(log, p) ensures exists i: nat :: i < |t'.slots| && t'.slots[i] == Admitted(p) {
      var i: nat :| i < |t.slots| && t.slots[i] == Admitted(p);
      assert t'.slots[i] == Admitted(p);
    }
    forall p: nat | CallAt(log, p) ensures Settled(log, p) || exists i: nat :: 0 <= i < |t'.slots| && t'.slots[i] == Admitted(p) {
      if !Settled(log, p) {
        var i: nat :| 0 <= i < |t.slots| && t.slots[i] == Admitted(p);
        assert t'.slots[i] == Admitted(p);
      }
    }
  }

  lemma RefuseKeeps(w: World, s: Step, v: World)
    requires Inv(w) && s.RefuseWithoutStore? && Next(w, s, v)
    ensures Inv(v)
  {
    RefusedSlotKeeps(w.log, w.driver.turn);
    SameGate(w, v);
  }

  lemma AdmitKeeps(w: World, s: Step, v: World)
    requires Inv(w) && s.Admit? && Next(w, s, v)
    ensures Inv(v)
  {
    var d := w.driver;
    var t, call, n := d.turn, Current(d), |w.log|;
    var e := RunEvent(n + 1, ToolCall(call.id, call.name, call.args));
    assert v.log == w.log + [e];
    AdmitSerial(w.log, t, e);
    AdmitTurn(w.log, t, e);
    AdmitGate(w, v);
    assert forall q | q in v.executed :: CallAt(w.log, q) && CallAt(v.log, q);
  }

  lemma AdmitGate(w: World, v: World)
    requires GateOk(w) && Next(w, Admit, v)
    ensures GateOk(v)
  {
    hide DriverOk;
    var d, n := w.driver, |w.log|;
    assert forall c: nat, i: nat :: DecisionOf(v.log, c, i) <==> DecisionOf(w.log, c, i);
    forall q: nat | CallAt(v.log, q) && Gated(v.log[q].payload.name) ensures ApprovedAt(v, q) {
      if q < n {
        assert CallAt(w.log, q) && ApprovedAt(w, q);
      } else {
        assert d.stage.Cleared?;
      }
    }
  }

  /** The new call's id is free: distinct from its turn's, and settled everywhere else. */
  lemma AdmitSerial(log: seq<RunEvent>, t: TurnState, e: RunEvent)
    requires Serial(log) && TurnOk(log, t) && SettledBut(log, t.slots, 0) && |t.slots| < |t.calls|
    requires e.payload == ToolCall(t.calls[|t.slots|].id, t.calls[|t.slots|].name, t.calls[|t.slots|].args)
    ensures Serial(log + [e])
  {
    var l := log + [e];
    forall p: nat, q: nat | p < q && SameCall(l, p, q) ensures SettledBefore(l, p, q) {
      if q < |log| {
        assert SameCall(log, p, q);
        SettledGrows(log, e, p, q);
      } else {
        assert CallAt(log, p);
        forall i: nat | i < |t.slots| ensures t.slots[i] != Admitted(p) {
          assert t.calls[i].id != t.calls[|t.slots|].id;
        }
        SettledGrows(log, e, p, |log|);
      }
    }
    forall p: nat | CallAt(l, p) ensures l[p].payload.callId != "" {
      assert p < |log| ==> CallAt(log, p);
    }
  }

  lemma AdmitTurn(log: seq<RunEvent>, t: TurnState, e: RunEvent)
    requires TurnOk(log, t) && SettledBut(log, t.slots, 0) && |t.slots| < |t.calls|
    requires e.payload == ToolCall(t.calls[|t.slots|].id, t.calls[|t.slots|].name, t.calls[|t.slots|].args)
    ensures var t' := t.(slots := t.slots + [Admitted(|log|)]); TurnOk(log + [e], t') && SettledBut(log + [e], t'.slots, 0)
  {
    var l, t' := log + [e], t.(slots := t.slots + [Admitted(|log|)]);
    assert t'.slots[|t.slots|] == Admitted(|log|);
    forall p: nat | t.start <= p && CallAt(l, p) ensures exists i: nat :: i < |t'.slots| && t'.slots[i] == Admitted(p) {
      if p < |log| {
        assert CallAt(log, p);
        var i: nat :| i < |t.slots| && t.slots[i] == Admitted(p);
        assert t'.slots[i] == Admitted(p);
      }
    }
    forall p: nat | CallAt(l, p) ensures Settled(l, p) || exists i: nat :: 0 <= i < |t'.slots| && t'.slots[i] == Admitted(p) {
      if p < |log| {
        assert CallAt(log, p);
        if Settled(log, p) {
          SettledGrows(log, e, p, |log|);
        } else {
          var i: nat :| 0 <= i < |t.slots| && t.slots[i] == Admitted(p);
          assert t'.slots[i] == Admitted(p);
        }
      }
    }
  }

  lemma WorkKeeps(w: World, s: Step, v: World)
    requires Inv(w) && (s.StartWork? || s.Complete? || s.Gather?) && Next(w, s, v)
    ensures Inv(v)
  {
    SameGate(w, v);
    if s.StartWork? {
      var t := w.driver.turn;
      forall i: nat | i < |t.slots| && t.slots[i].Admitted? ensures t.slots[i].pos !in v.executed {
        assert t.start <= t.slots[i].pos;
      }
    }
  }

  lemma ExecuteKeeps(w: World, s: Step, v: World)
    requires Inv(w) && s.Execute? && Next(w, s, v)
    ensures Inv(v)
  {
    var d := w.driver;
    var t, k := d.turn, s.i;
    var p := t.slots[k].pos;
    assert p !in w.executed && CallAt(w.log, p);
    forall i: nat | i < |t.slots| && t.slots[i].Admitted? && i !in v.driver.started ensures t.slots[i].pos !in v.executed {
      assert i != k;
      assert t.calls[i].id != t.calls[k].id;
      assert w.log[t.slots[i].pos].payload.callId == t.calls[i].id && w.log[p].payload.callId == t.calls[k].id;
    }
    SameGate(w, v);
  }

  lemma ReportKeeps(w: World, s: Step, v: World)
    requires Inv(w) && s.Report? && Next(w, s, v)
    ensures Inv(v)
  {
    var d := w.driver;
    var t, k, n := d.turn, d.reported, |w.log|;
    NeutralAppend(w, s.outcome);
    var u := Append(w, s.outcome);
    forall p: nat | CallAt(v.log, p) ensures Settled(v.log, p) || exists i: nat ::
        k + 1 <= i < |t.slots| && t.slots[i] == Admitted(p) {
      if !Settled(v.log, p) {
        assert CallAt(u.log, p);
        var i: nat :| k <= i < |t.slots| && t.slots[i] == Admitted(p);
        if i == k {
          ReportSettles(u.log, t, k, n);
        }
      }
    }
    assert SettledBut(v.log, t.slots, k + 1);
    SameGate(u, v);
  }

  lemma ReportSettles(log: seq<RunEvent>, t: TurnState, k: nat, n: nat)
    requires TurnOk(log, t) && k < |t.slots| && t.slots[k].Admitted? && t.slots[k].pos < n < |log|
    requires IsOutcome(log[n].payload) && log[n].payload.callId == t.calls[k].id
    ensures Settled(log, t.slots[k].pos)
  {
    var p := t.slots[k].pos;
    forall m: nat | p < m < n ensures !SameCall(log, p, m) {
      if CallAt(log, m) {
        var i: nat :| i < |t.slots| && t.slots[i] == Admitted(m);
        assert i != k;
        assert t.calls[i].id != t.calls[k].id;
      }
    }
    assert OwnOutcome(log, p, n);
  }

  /** What the restart relies on: in a serial log, an id that is answered at all was answered for each call. */
  lemma CertainMeansSettled(log: seq<RunEvent>, p: nat)
    requires Serial(log) && CallAt(log, p) && !Uncertain(log)
    ensures Settled(log, p)
  {
    UncertainIffOpenCall(log);
    assert !OpenCall(log, p);
    var q: nat :| Answers(log, p, q);
    if m: nat :| p < m < q && SameCall(log, p, m) {
      assert SettledBefore(log, p, m);
    } else {
      assert OwnOutcome(log, p, q);
    }
  }

  lemma ResumeKeeps(w: World, s: Step, v: World)
    requires Inv(w) && s.Resume? && Next(w, s, v)
    ensures Inv(v)
  {
    forall p: nat | CallAt(w.log, p) ensures Settled(w.log, p) {
      CertainMeansSettled(w.log, p);
    }
    SameGate(w, v);
  }

  lemma ResolveKeeps(w: World, s: Step, v: World)
    requires Inv(w) && s.Resolve? && Next(w, s, v)
    ensures Inv(v)
  {
    forall q: nat | CallAt(v.log, q) && Gated(v.log[q].payload.name) ensures ApprovedAt(v, q) {
      assert ApprovedAt(w, q);
    }
  }

  lemma NoteKeeps(w: World, s: Step, v: World)
    requires Inv(w) && (s.NoteEvent? || s.DriverError? || s.RefuseResume? || s.FinishRun? || s.Crash? || s.NextTurn?)
                && Next(w, s, v)
    ensures Inv(v)
  {
    hide Inv, DriverOk, GateOk, ExecutedOk, Serial;
    match s
    case NoteEvent(kind) => NeutralAppend(w, Notice(kind));
    case DriverError(message) =>
      var u := w.(driver := Down);
      DriverGone(w, Down);
      NeutralAppend(u, Error(message));
      DriverGone(Append(u, Error(message)), Closing(Failed));
    case RefuseResume(text) =>
      NeutralAppend(w, Done(text, UncertainAfterRestart));
      DriverGone(Append(w, Done(text, UncertainAfterRestart)), Closing(Incomplete));
    case FinishRun => FinishKeeps(w, v);
    case Crash => DriverGone(w, Down);
    case NextTurn => NextTurnKeeps(w, v);
  }

  lemma FinishKeeps(w: World, v: World)
    requires Inv(w) && Next(w, FinishRun, v)
    ensures Inv(v)
  {
    DriverGone(w, Down);
    SameGate(w.(driver := Down), v);
  }

  lemma NextTurnKeeps(w: World, v: World)
    requires Inv(w) && Next(w, NextTurn, v)
    ensures Inv(v)
  {
    SameGate(w, v);
    NoneLeft(w.log, w.driver.turn.slots);
  }

  lemma NoneLeft(log: seq<RunEvent>, slots: seq<Slot>)
    requires SettledBut(log, slots, |slots|)
    ensures SettledBut(log, [], 0)
  {
  }

  predicate IsGateStep(s: Step) {
    || s.CreateConfirmation? || s.LogRequest? || s.Poll? || s.TimeOut? || s.LogDecision?
    || s.RefuseWithoutStore? || s.Admit? || s.Resolve?
  }

  lemma GateStepKeeps(w: World, s: Step, v: World)
    requires Inv(w) && IsGateStep(s) && Next(w, s, v)
    ensures Inv(v)
  {
    hide Inv, Next;
    if s.CreateConfirmation? {
      CreateKeeps(w, s, v);
    } else if s.LogRequest? {
      LogRequestKeeps(w, s, v);
    } else if s.LogDecision? {
      LogDecisionKeeps(w, s, v);
    } else if s.RefuseWithoutStore? {
      RefuseKeeps(w, s, v);
    } else if s.Admit? {
      AdmitKeeps(w, s, v);
    } else if s.Resolve? {
      ResolveKeeps(w, s, v);
    } else {
      DecideKeeps(w, s, v);
    }
  }

  lemma StepKeepsInv(w: World, s: Step, v: World)
    requires Inv(w) && Next(w, s, v)
    ensures Inv(v)
  {
    hide Inv, Next;
    if IsGateStep(s) {
      GateStepKeeps(w, s, v);
    } else if s.StartWork? || s.Complete? || s.Gather? {
      WorkKeeps(w, s, v);
    } else if s.AskModel? {
      AskModelKeeps(w, s, v);
    } else if s.EndRun? {
      EndRunKeeps(w, s, v);
    } else if s.Execute? {
      ExecuteKeeps(w, s, v);
    } else if s.Report? {
      ReportKeeps(w, s, v);
    } else if s.Resume? {
      ResumeKeeps(w, s, v);
    } else {
      NoteKeeps(w, s, v);
    }
  }

  // ---------------------------------------------------------------- whole runs

  /** A run of the system: states and the steps between them. */
  ghost predicate IsRun(ws: seq<World>, steps: seq<Step>) {
    && |ws| == |steps| + 1 && Init(ws[0])
    && forall k | 0 <= k < |steps| :: Next(ws[k], steps[k], ws[k + 1])
  }

  lemma {:induction false} RunKeepsInv(ws: seq<World>, steps: seq<Step>, k: nat)
    requires IsRun(ws, steps) && k < |ws|
    ensures Inv(ws[k])
  {
    if k == 0 {
      assert forall c: nat, i: nat :: !DecisionOf(ws[0].log, c, i);
    } else {
      RunKeepsInv(ws, steps, k - 1);
      StepKeepsInv(ws[k - 1], steps[k - 1], ws[k]);
    }
  }

  /** At most once: however often the run crashes and resumes, every side effect was announced in the log first,
      and no logged call instance is ever executed twice. */
  lemma AtMostOnce(ws: seq<World>, steps: seq<Step>, k: nat)
    requires IsRun(ws, steps) && k < |ws|
    ensures forall p | p in ws[k].executed :: CallAt(ws[k].log, p)
    ensures forall i, j | 0 <= i < j < |ws[k].executed| :: ws[k].executed[i] != ws[k].executed[j]
  {
    RunKeepsInv(ws, steps, k);
  }

  /** Safe restart: a run is relaunched only when every call it ever announced - so every one it executed - has
      its own outcome in the log, and the rebuilt conversation shows an outcome for it. */
  lemma RelaunchOnlyWhenSettled(ws: seq<World>, steps: seq<Step>, k: nat, p: nat, initial: seq<Message>)
    requires IsRun(ws, steps) && k < |steps| && steps[k].Resume? && AllPlain(initial)
    requires CallAt(ws[k].log, p)
    ensures Settled(ws[k].log, p)
    ensures exists b :: b in Results(Rebuilt(initial, ws[k].log)) && b.ResultBlock? && b.toolUseId == ws[k].log[p].payload.callId
  {
    RunKeepsInv(ws, steps, k);
    assert Next(ws[k], steps[k], ws[k + 1]);
    CertainMeansSettled(ws[k].log, p);
    ResumedModelSeesEveryOutcome(initial, ws[k].log, p);
  }

  /** A dead run with an executed call that has no outcome of its own: no driver, or one that only closes it. */
  ghost predicate DeadEnd(w: World, p: nat) {
    (w.driver.Down? || w.driver.Closing?) && p in w.executed && !Settled(w.log, p)
  }

  lemma StaysUnsettled(log: seq<RunEvent>, e: RunEvent, p: nat)
    requires !Settled(log, p) && !IsOutcome(e.payload) && CallAt(log, p)
    ensures !Settled(log + [e], p)
  {
    forall q: nat ensures !(q < |log| + 1 && OwnOutcome(log + [e], p, q)) {
      if q < |log| {
        OwnOutcomeGrows(log, e, p, q);
      }
    }
  }

  lemma DeadEndStep(w: World, s: Step, v: World, p: nat)
    requires Inv(w) && DeadEnd(w, p) && Next(w, s, v)
    ensures DeadEnd(v, p) && v.executed == w.executed && !s.Resume?
  {
    assert CallAt(w.log, p);
    if s.Resume? {
      CertainMeansSettled(w.log, p);
    } else if s.RefuseResume? {
      StaysUnsettled(w.log, RunEvent(|w.log| + 1, Done(s.text, UncertainAfterRestart)), p);
    }
  }

  /** Conversely, while some executed call has no outcome of its own, a dead run stays dead: it is never resumed,
      nothing more is executed, and the outcome never comes. */
  lemma {:induction false} UnsettledRunIsNeverRelaunched(ws: seq<World>, steps: seq<Step>, k: nat, l: nat, p: nat)
    requires IsRun(ws, steps) && k <= l < |ws| && DeadEnd(ws[k], p)
    ensures DeadEnd(ws[l], p) && ws[l].executed == ws[k].executed
    ensures forall i | k <= i < l :: !steps[i].Resume?
    decreases l
  {
    hide Inv, Next, DeadEnd;
    if k < l {
      UnsettledRunIsNeverRelaunched(ws, steps, k, l - 1, p);
      RunKeepsInv(ws, steps, l - 1);
      DeadEndStep(ws[l - 1], steps[l - 1], ws[l], p);
    }
  }

  /** The gate: an executed gated call stands right behind the approving decision of a confirmation made for this
      tool and these arguments, and no two calls share a confirmation. */
  lemma GatedCallsWereApproved(ws: seq<World>, steps: seq<Step>, k: nat, p: nat, q: nat)
    requires IsRun(ws, steps) && k < |ws| && p in ws[k].executed && q in ws[k].executed
    requires CallAt(ws[k].log, p) ==> Gated(ws[k].log[p].payload.name)
    requires CallAt(ws[k].log, q) ==> Gated(ws[k].log[q].payload.name)
    ensures CallAt(ws[k].log, p) && ApprovedAt(ws[k], p)
    ensures CallAt(ws[k].log, q) && ApprovedAt(ws[k], q)
    ensures ws[k].log[p - 1].payload.confirmationId == ws[k].log[q - 1].payload.confirmationId ==> p == q
  {
    RunKeepsInv(ws, steps, k);
    var log := ws[k].log;
    assert CallAt(log, p) && CallAt(log, q);
    assert ApprovedAt(ws[k], p) && ApprovedAt(ws[k], q);
    var c := log[p - 1].payload.confirmationId;
    assert DecisionOf(log, c, p - 1);
    assert log[q - 1].payload.confirmationId == c ==> DecisionOf(log, c, q - 1);
  }

  /** What lasts of a world: its log and, for one confirmation, what was asked and - once decided - the answer. */
  ghost predicate Lasts(w: World, v: World, c: nat) {
    && c in w.confirmations && c in v.confirmations
    && v.confirmations[c].tool == w.confirmations[c].tool && v.confirmations[c].args == w.confirmations[c].args
    && (!w.confirmations[c].decision.Pending? ==> v.confirmations[c] == w.confirmations[c])
    && w.log <= v.log
  }

  lemma LastsFurther(u: World, w: World, v: World, c: nat)
    requires Lasts(u, w, c) && Lasts(w, v, c)
    ensures Lasts(u, v, c)
  {
  }

  lemma LastsAtFirst(w: World, c: nat)
    requires c in w.confirmations
    ensures Lasts(w, w, c)
  {
  }

  lemma DurableStep(w: World, s: Step, v: World, c: nat)
    requires Next(w, s, v) && c in w.confirmations
    ensures Lasts(w, v, c)
  {
  }

  /** A confirmation leaves `Pending` at most once and never changes again; the log only grows. */
  lemma {:induction false} DecisionsAreFinal(ws: seq<World>, steps: seq<Step>, j: nat, k: nat, c: nat)
    requires IsRun(ws, steps) && j <= k < |ws| && c in ws[j].confirmations
    ensures Lasts(ws[j], ws[k], c)
    decreases k
  {
    hide IsRun, Next, Lasts;
    if j == k {
      LastsAtFirst(ws[j], c);
    } else {
      DecisionsAreFinal(ws, steps, j, k - 1, c);
      RunStep(ws, steps, k - 1);
      StillThere(ws[j], ws[k - 1], c);
      DurableStep(ws[k - 1], steps[k - 1], ws[k], c);
      LastsFurther(ws[j], ws[k - 1], ws[k], c);
    }
  }

  lemma RunStep(ws: seq<World>, steps: seq<Step>, k: nat)
    requires IsRun(ws, steps) && k + 1 < |ws|
    ensures k < |steps| && Next(ws[k], steps[k], ws[k + 1])
  {
  }

  lemma StillThere(w: World, v: World, c: nat)
    requires Lasts(w, v, c)
    ensures c in v.confirmations
  {
  }

  /** One call announced and started: the five states of `CrashInTheWindow`. */
  function WindowState(call: Request, k: nat): World {
    var log := [RunEvent(1, ToolCall(call.id, call.name, call.args))];
    var admitted := TurnState(0, [call], [Admitted(0)]);
    if k == 0 then World([], Running, map[], [], Idle, true)
    else if k == 1 then World([], Running, map[], [], Announcing(TurnState(0, [call], []), NoGate), true)
    else if k == 2 then World(log, Running, map[], [], Announcing(admitted, NoGate), true)
    else if k == 3 then World(log, Running, map[], [], Working(admitted, {}, {}), true)
    else if k == 4 then World(log, Running, map[], [0], Working(admitted, {0}, {}), true)
    else World(log, Running, map[], [0], Down, true)
  }

  lemma WindowAsks(call: Request)
    requires call.id != ""
    ensures Next(WindowState(call, 0), AskModel("", [call]), WindowState(call, 1))
  {
  }

  lemma WindowAdmits(call: Request)
    requires !Gated(call.name)
    ensures Next(WindowState(call, 1), Admit, WindowState(call, 2))
  {
    var w := WindowState(call, 1);
    assert AtCall(w.driver) && Current(w.driver) == call;
    assert [] + [Admitted(0)] == [Admitted(0)];
  }

  lemma WindowWorks(call: Request)
    ensures Next(WindowState(call, 2), StartWork, WindowState(call, 3))
    ensures Next(WindowState(call, 3), Execute(0), WindowState(call, 4))
    ensures Next(WindowState(call, 4), Crash, WindowState(call, 5))
  {
    assert {} + {0} == {0};
  }

  /** The dangerous window is reachable: a crash between a call's execution and its outcome leaves a run whose
      side effect exists, and which every restart refuses to resume. */
  lemma CrashInTheWindow(call: Request) returns (ws: seq<World>, steps: seq<Step>)
    requires call.id != "" && !Gated(call.name)
    ensures IsRun(ws, steps) && |ws| == 6
    ensures ws[5].driver.Down? && ws[5].status.Running? && ws[5].executed == [0] && Uncertain(ws[5].log)
  {
    hide Next, Uncertain;
    ws := [WindowState(call, 0), WindowState(call, 1), WindowState(call, 2), WindowState(call, 3), WindowState(call, 4),
           WindowState(call, 5)];
    steps := [AskModel("", [call]), Admit, StartWork, Execute(0), Crash];
    WindowAsks(call);
    WindowAdmits(call);
    WindowWorks(call);
    assert OpenCall(ws[5].log, 0);
    UncertainIffOpenCall(ws[5].log);
  }

  // ---------------------------------------------------------------- what the uncertainty check needs of ids

  /** For every log whose calls carry ids and that the check accepts: all calls have an outcome of their own if and
      only if no id was called again before its previous call was settled. */
  lemma CertainLogIsSettledIffSerial(log: seq<RunEvent>)
    requires !Uncertain(log) && forall p: nat | CallAt(log, p) :: log[p].payload.callId != ""
    ensures (forall p: nat | CallAt(log, p) :: Settled(log, p)) <==> Serial(log)
  {
    if Serial(log) {
      forall p: nat | CallAt(log, p) ensures Settled(log, p) {
        CertainMeansSettled(log, p);
      }
    }
    if forall p: nat | CallAt(log, p) :: Settled(log, p) {
      forall p: nat, q: nat | p < q && SameCall(log, p, q) ensures SettledBefore(log, p, q) {
        assert Settled(log, p);
        var x: nat :| x < |log| && OwnOutcome(log, p, x);
        assert x != q && !(q < x);
      }
    }
  }

  /** One turn: the ids of its calls, and which of them pass the gate. */
  datatype TurnIds = TurnIds(ids: seq<string>, passed: seq<nat>)

  predicate IsTurn(t: TurnIds) {
    && t.passed != [] && (forall i | 0 <= i < |t.passed| :: t.passed[i] < |t.ids| && t.ids[t.passed[i]] != "")
    && (forall i, j | 0 <= i < j < |t.passed| :: t.passed[i] < t.passed[j])
  }

  /** The log of a turn: the calls that passed the gate, then the outcomes of all of them, in the same order. */
  ghost predicate IsTurnLog(log: seq<RunEvent>, t: TurnIds) {
    && IsTurn(t) && |log| == |t.passed| + |t.ids|
    && (forall i | 0 <= i < |t.passed| :: log[i].payload.ToolCall? && log[i].payload.callId == t.ids[t.passed[i]])
    && (forall j | |t.passed| <= j < |log| ::
          IsOutcome(log[j].payload) && log[j].payload.callId == t.ids[j - |t.passed|])
  }

  /** The `i`-th of these calls is announced, but its outcome is not yet logged, when the process dies after `k` events. */
  predicate LacksOutcome(t: TurnIds, k: nat, i: nat) {
    i < |t.passed| && i < k && k <= |t.passed| + t.passed[i]
  }

  /** What the check makes of it then: its id occurs in no logged outcome. */
  predicate LooksOpen(t: TurnIds, k: nat, i: nat)
    requires IsTurn(t)
  {
    i < |t.passed| && i < k && forall m | 0 <= m < |t.ids| && |t.passed| + m < k :: t.ids[m] != t.ids[t.passed[i]]
  }

  /** No earlier call of the turn, announced or refused, has the id of this one. */
  predicate IdIsNew(t: TurnIds, i: nat)
    requires IsTurn(t) && i < |t.passed|
  {
    forall m | 0 <= m < t.passed[i] :: t.ids[m] != t.ids[t.passed[i]]
  }

  lemma OpenInTurn(base: seq<RunEvent>, turn: seq<RunEvent>, t: TurnIds, k: nat, i: nat)
    requires IsTurnLog(turn, t) && k <= |turn| && i < |t.passed| && i < k
    ensures OpenCall(base + turn[..k], |base| + i) <==> LooksOpen(t, k, i)
  {
    var log, n := base + turn[..k], |t.passed|;
    assert log[|base| + i] == turn[i];
    if !LooksOpen(t, k, i) {
      var m :| 0 <= m < |t.ids| && n + m < k && t.ids[m] == t.ids[t.passed[i]];
      assert log[|base| + n + m] == turn[n + m];
      assert Answers(log, |base| + i, |base| + n + m);
    }
    if !OpenCall(log, |base| + i) {
      var j: nat :| Answers(log, |base| + i, j);
      assert log[j] == turn[j - |base|];
      var m := j - |base| - n;
      assert m >= 0 && turn[n + m].payload.callId == t.ids[m];
    }
  }

  lemma LooksRightIff(t: TurnIds, k: nat, i: nat)
    requires IsTurn(t) && i < |t.passed| && i < k
    ensures IdIsNew(t, i) ==> (LooksOpen(t, k, i) <==> LacksOutcome(t, k, i))
    ensures k == |t.passed| + t.passed[i] && !IdIsNew(t, i) ==> LacksOutcome(t, k, i) && !LooksOpen(t, k, i)
  {
    if |t.passed| + t.passed[i] < k {
      var m := t.passed[i];
      assert t.ids[m] == t.ids[t.passed[i]];
    }
  }

  /** Call by call, the check is right at every crash point of a turn if and only if no call that passed the gate
      has the id of an earlier call - for a turn without refusals: if and only if its ids are pairwise distinct. */
  lemma CheckIsRightPerCallIff(base: seq<RunEvent>, turn: seq<RunEvent>, t: TurnIds)
    requires IsTurnLog(turn, t)
    ensures (forall k: nat, i: nat | k <= |turn| && i < |t.passed| && i < k ::
               OpenCall(base + turn[..k], |base| + i) <==> LacksOutcome(t, k, i))
            <==> forall i | 0 <= i < |t.passed| :: IdIsNew(t, i)
  {
    forall k: nat, i: nat | k <= |turn| && i < |t.passed| && i < k
      ensures OpenCall(base + turn[..k], |base| + i) <==> LooksOpen(t, k, i)
    {
      OpenInTurn(base, turn, t, k, i);
    }
    if i :| 0 <= i < |t.passed| && !IdIsNew(t, i) {
      var k := |t.passed| + t.passed[i];
      LooksRightIff(t, k, i);
      assert OpenCall(base + turn[..k], |base| + i) <==> LooksOpen(t, k, i);
    } else {
      forall k: nat, i: nat | k <= |turn| && i < |t.passed| && i < k ensures LooksOpen(t, k, i) <==> LacksOutcome(t, k, i) {
        LooksRightIff(t, k, i);
      }
    }
  }

  lemma AllPassed(t: TurnIds)
    requires IsTurn(t) && t.passed == seq(|t.ids|, i => i)
    ensures (forall i | 0 <= i < |t.passed| :: IdIsNew(t, i)) <==> forall i, j | 0 <= i < j < |t.ids| :: t.ids[i] != t.ids[j]
  {
    if forall i | 0 <= i < |t.passed| :: IdIsNew(t, i) {
      forall i, j | 0 <= i < j < |t.ids| ensures t.ids[i] != t.ids[j] {
        assert IdIsNew(t, j) && t.passed[j] == j;
      }
    }
  }

  /** Some call lacks its outcome; some call looks open. */
  ghost predicate AnyLacks(t: TurnIds, k: nat) { exists i: nat :: LacksOutcome(t, k, i) }

  ghost predicate AnyLooksOpen(t: TurnIds, k: nat)
    requires IsTurn(t)
  {
    exists i: nat :: LooksOpen(t, k, i)
  }

  lemma OldCallsStayAnswered(base: seq<RunEvent>, more: seq<RunEvent>)
    requires !Uncertain(base)
    ensures forall p: nat | p < |base| :: !OpenCall(base + more, p)
  {
    UncertainIffOpenCall(base);
    forall p: nat | p < |base| && CallAt(base, p) ensures !OpenCall(base + more, p) {
      assert !OpenCall(base, p);
      var j: nat :| Answers(base, p, j);
      assert Answers(base + more, p, j);
    }
  }

  lemma FlagInTurn(base: seq<RunEvent>, turn: seq<RunEvent>, t: TurnIds, k: nat)
    requires IsTurnLog(turn, t) && !Uncertain(base) && k <= |turn|
    ensures Uncertain(base + turn[..k]) <==> AnyLooksOpen(t, k)
  {
    var log := base + turn[..k];
    UncertainIffOpenCall(log);
    OldCallsStayAnswered(base, turn[..k]);
    if p: nat :| OpenCall(log, p) {
      var i: nat := p - |base|;
      assert log[p] == turn[i];
      assert !IsOutcome(turn[i].payload);
      OpenInTurn(base, turn, t, k, i);
    }
    if i: nat :| LooksOpen(t, k, i) {
      OpenInTurn(base, turn, t, k, i);
    }
  }

  /** The flag alone - resume or refuse - is right at every crash point of a turn if and only if the last call that
      passed the gate has an id of its own: an earlier repetition is covered up by a later call that is still open. */
  lemma FlagIsRightIff(base: seq<RunEvent>, turn: seq<RunEvent>, t: TurnIds)
    requires IsTurnLog(turn, t) && !Uncertain(base)
    ensures (forall k: nat | k <= |turn| :: Uncertain(base + turn[..k]) <==> AnyLacks(t, k))
            <==> IdIsNew(t, |t.passed| - 1)
  {
    var n, last := |t.passed|, |t.passed| - 1;
    forall k: nat | k <= |turn| ensures Uncertain(base + turn[..k]) <==> AnyLooksOpen(t, k) {
      FlagInTurn(base, turn, t, k);
    }
    if !IdIsNew(t, last) {
      var k := n + t.passed[last];
      LooksRightIff(t, k, last);
      NoneLooksOpen(t, k);
      assert LacksOutcome(t, k, last);
      assert !Uncertain(base + turn[..k]);
    } else {
      forall k: nat | k <= |turn| ensures AnyLooksOpen(t, k) <==> AnyLacks(t, k) {
        FlagSees(t, k);
      }
    }
  }

  lemma NoneLooksOpen(t: TurnIds, k: nat)
    requires IsTurn(t) && !IdIsNew(t, |t.passed| - 1) && k == |t.passed| + t.passed[|t.passed| - 1]
    ensures forall i: nat :: !LooksOpen(t, k, i)
  {
    var n := |t.passed|;
    forall i: nat ensures !LooksOpen(t, k, i) {
      if i < n - 1 {
        assert t.ids[t.passed[i]] == t.ids[t.passed[i]] && n + t.passed[i] < k;
      } else if i == n - 1 {
        LooksRightIff(t, k, i);
      }
    }
  }

  lemma OpenLacks(t: TurnIds, k: nat, i: nat)
    requires IsTurn(t) && LooksOpen(t, k, i)
    ensures LacksOutcome(t, k, i)
  {
    var m := t.passed[i];
    if |t.passed| + m < k {
      assert false;
    }
  }

  lemma FlagSees(t: TurnIds, k: nat)
    requires IsTurn(t) && IdIsNew(t, |t.passed| - 1) && k <= |t.passed| + |t.ids|
    ensures AnyLooksOpen(t, k) <==> AnyLacks(t, k)
  {
    var n := |t.passed|;
    if i: nat :| LacksOutcome(t, k, i) {
      if k <= n {
        assert LooksOpen(t, k, i);
      } else {
        assert i <= n - 1 && t.passed[i] <= t.passed[n - 1];
        LooksRightIff(t, k, n - 1);
        assert LacksOutcome(t, k, n - 1);
      }
    }
    if i: nat :| LooksOpen(t, k, i) {
      OpenLacks(t, k, i);
    }
  }

  /** The smallest case: with one id used twice in a turn, one logged outcome hides that the other call has none,
      and the restart would go ahead. */
  lemma DuplicateIdsHideAnOutcome(id: string, name: ToolName, args: string, result: string)
    requires id != ""
    ensures var log := [RunEvent(1, ToolCall(id, name, args)), RunEvent(2, ToolCall(id, name, args)),
                        RunEvent(3, ToolResult(id, name, result))];
            !Uncertain(log) && !Settled(log, 0) && CallAt(log, 0)
  {
    var log := [RunEvent(1, ToolCall(id, name, args)), RunEvent(2, ToolCall(id, name, args)),
                RunEvent(3, ToolResult(id, name, result))];
    assert Answers(log, 0, 2) && Answers(log, 1, 2);
    UncertainIffOpenCall(log);
    assert SameCall(log, 0, 1);
    assert forall q: nat | q == 2 :: !OwnOutcome(log, 0, q);
  }
}
