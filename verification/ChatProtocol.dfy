/** The two views of the loop agree: whatever `ChatLoop.Chat` yields is the log of a run of the protocol.

    The loop is followed event by event; where it waits for a human, the protocol's human decides as the script
    says. So what is proved of all protocol runs holds of the loop. */
module ChatProtocol {
  import opened AgentLog
  import opened ChatLoop
  import P = RunProtocol

  type World = P.World
  type Step = P.Step

  /** The given steps lead from one world to the other. */
  ghost predicate Path(w: World, steps: seq<Step>, v: World)
    decreases |steps|
  {
    if steps == [] then w == v else exists u :: P.Next(w, steps[0], u) && Path(u, steps[1..], v)
  }

  lemma {:induction false} PathJoins(w: World, xs: seq<Step>, u: World, ys: seq<Step>, v: World)
    requires Path(w, xs, u) && Path(u, ys, v)
    ensures Path(w, xs + ys, v)
    decreases |xs|
  {
    hide P.Next;
    if xs == [] {
      assert xs + ys == ys;
    } else {
      var x :| P.Next(w, xs[0], x) && Path(x, xs[1..], u);
      PathJoins(x, xs[1..], u, ys, v);
      assert (xs + ys)[1..] == xs[1..] + ys && (xs + ys)[0] == xs[0];
    }
  }

  lemma OneStep(w: World, s: Step, v: World)
    requires P.Next(w, s, v)
    ensures Path(w, [s], v)
  {
    hide P.Next;
    assert [s][1..] == [];
    assert Path(v, [], v);
  }

  /** A path from an initial world is a run. */
  lemma {:induction false} PathIsRun(w: World, steps: seq<Step>, v: World) returns (ws: seq<World>)
    requires Path(w, steps, v)
    ensures |ws| == |steps| + 1 && ws[0] == w && ws[|steps|] == v
    ensures forall k | 0 <= k < |steps| :: P.Next(ws[k], steps[k], ws[k + 1])
    decreases |steps|
  {
    hide P.Next;
    if steps == [] {
      ws := [w];
    } else {
      var u :| P.Next(w, steps[0], u) && Path(u, steps[1..], v);
      var rest := PathIsRun(u, steps[1..], v);
      ws := [w] + rest;
      forall k | 0 <= k < |steps| ensures P.Next(ws[k], steps[k], ws[k + 1]) {
        if k > 0 {
          assert P.Next(rest[k - 1], steps[1..][k - 1], rest[k]);
        }
      }
    }
  }

  // ---------------------------------------------------------------- logs

  function Extend(log: seq<RunEvent>, ps: seq<Payload>): seq<RunEvent>
    decreases |ps|
  {
    if ps == [] then log else Extend(log + [RunEvent(|log| + 1, ps[0])], ps[1..])
  }

  lemma {:induction false} ExtendTwice(log: seq<RunEvent>, xs: seq<Payload>, ys: seq<Payload>)
    ensures Extend(Extend(log, xs), ys) == Extend(log, xs + ys)
    decreases |xs|
  {
    if xs == [] {
      assert xs + ys == ys;
    } else {
      assert (xs + ys)[1..] == xs[1..] + ys;
      ExtendTwice(log + [RunEvent(|log| + 1, xs[0])], xs[1..], ys);
    }
  }

  lemma ExtendOne(log: seq<RunEvent>, p: Payload)
    ensures Extend(log, [p]) == log + [RunEvent(|log| + 1, p)]
  {
    assert [p][1..] == [];
  }

  /** What a stretch of the loop leaves: a longer log, the driver somewhere else, and new confirmations. */
  ghost predicate Leaves(w: World, v: World, ps: seq<Payload>, driver: P.Driver, asked: set<nat>) {
    && v.log == Extend(w.log, ps) && v.driver == driver && v.status == w.status && v.canConfirm == w.canConfirm
    && v.confirmations.Keys == w.confirmations.Keys + asked
  }

  lemma LeavesTwice(w: World, u: World, v: World, xs: seq<Payload>, ys: seq<Payload>, d: P.Driver, e: P.Driver,
                    a: set<nat>, b: set<nat>)
    requires Leaves(w, u, xs, d, a) && Leaves(u, v, ys, e, b)
    ensures Leaves(w, v, xs + ys, e, a + b)
  {
    ExtendTwice(w.log, xs, ys);
  }

  lemma LeavesNothing(w: World)
    ensures Leaves(w, w, [], w.driver, {}) && Path(w, [], w)
  {
  }

  /** Two stretches, one after the other. */
  lemma Join(w: World, xs: seq<Step>, u: World, ys: seq<Step>, v: World, ps: seq<Payload>, qs: seq<Payload>,
             d: P.Driver, e: P.Driver, a: set<nat>, b: set<nat>)
    requires Path(w, xs, u) && Path(u, ys, v) && Leaves(w, u, ps, d, a) && Leaves(u, v, qs, e, b)
    ensures Path(w, xs + ys, v) && Leaves(w, v, ps + qs, e, a + b)
  {
    hide Path, Leaves;
    PathJoins(w, xs, u, ys, v);
    LeavesTwice(w, u, v, ps, qs, d, e, a, b);
  }

  // ---------------------------------------------------------------- single steps

  lemma NoteStep(w: World, kind: NoticeKind) returns (v: World)
    requires w.driver.Idle? || w.driver.Reporting?
    ensures Path(w, [P.NoteEvent(kind)], v) && Leaves(w, v, [Notice(kind)], w.driver, {})
  {
    v := P.Append(w, Notice(kind));
    ExtendOne(w.log, Notice(kind));
    OneStep(w, P.NoteEvent(kind), v);
  }

  lemma MaybeNote(w: World, b: bool, kind: NoticeKind) returns (steps: seq<Step>, v: World)
    requires w.driver.Idle? || w.driver.Reporting?
    ensures Path(w, steps, v) && Leaves(w, v, if b then [Notice(kind)] else [], w.driver, {})
  {
    if b {
      v := NoteStep(w, kind);
      steps := [P.NoteEvent(kind)];
    } else {
      steps, v := [], w;
      LeavesNothing(w);
    }
  }

  function TextOf(text: string): seq<Payload> { if text != "" then [Text(text)] else [] }

  lemma TextIsAppended(w: World, text: string)
    ensures P.AppendText(w, text) == w.(log := Extend(w.log, TextOf(text)))
  {
    if text != "" {
      ExtendOne(w.log, Text(text));
    }
  }

  function RequestOf(r: CallRecord): P.Request { P.Request(r.id, r.name, r.args) }

  function Requests(rs: seq<CallRecord>): seq<P.Request> {
    seq(|rs|, i requires 0 <= i < |rs| => RequestOf(rs[i]))
  }

  predicate DistinctIds(rs: seq<CallRecord>) {
    && (forall i | 0 <= i < |rs| :: rs[i].id != "")
    && (forall i, j | 0 <= i < j < |rs| :: rs[i].id != rs[j].id)
  }

  lemma AskStep(w: World, text: string, rs: seq<CallRecord>) returns (v: World)
    requires w.driver.Idle? && rs != [] && DistinctIds(rs)
    ensures Path(w, [P.AskModel(text, Requests(rs))], v)
    ensures Leaves(w, v, TextOf(text), P.Announcing(P.TurnState(|v.log|, Requests(rs), []), P.NoGate), {})
  {
    TextIsAppended(w, text);
    var u := P.AppendText(w, text);
    v := u.(driver := P.Announcing(P.TurnState(|u.log|, Requests(rs), []), P.NoGate));
    OneStep(w, P.AskModel(text, Requests(rs)), v);
  }

  // ---------------------------------------------------------------- the gate of one call

  /** The gate of a record is what the loop makes of a call of this name. */
  predicate GateFits(r: CallRecord, canConfirm: bool) {
    && (if !Gated(r.name) then r.gate.Open? else if canConfirm then r.gate.Asked? else r.gate.NoStore?)
    && (!Allowed(r.gate) ==> r.outcome.Failure?)
  }

  function AskedBy(r: CallRecord): set<nat> { if r.gate.Asked? then {r.gate.confirmationId} else {} }

  /** The gate loop stands at the call of `r`. */
  predicate StandsAt(w: World, r: CallRecord, stage: P.GateStage) {
    P.AtCall(w.driver) && w.driver.stage == stage && P.Current(w.driver) == RequestOf(r)
  }

  function Slotted(d: P.Driver, s: P.Slot): P.Driver
    requires d.Announcing?
  {
    P.AddSlot(d, s)
  }

  lemma AdmitStep(w: World, r: CallRecord, stage: P.GateStage) returns (v: World)
    requires StandsAt(w, r, stage) && (stage.Cleared? || (stage.NoGate? && !Gated(r.name)))
    ensures Path(w, [P.Admit], v)
    ensures Leaves(w, v, [ToolCall(r.id, r.name, r.args)], Slotted(w.driver, P.Admitted(|w.log|)), {})
  {
    var p := ToolCall(r.id, r.name, r.args);
    v := P.Append(w, p).(driver := P.AddSlot(w.driver, P.Admitted(|w.log|)));
    ExtendOne(w.log, p);
    OneStep(w, P.Admit, v);
  }

  lemma CreateStep(w: World, r: CallRecord, c: nat) returns (v: World)
    requires StandsAt(w, r, P.NoGate) && Gated(r.name) && w.canConfirm && c !in w.confirmations
    ensures Path(w, [P.CreateConfirmation(c)], v) && Leaves(w, v, [], w.driver.(stage := P.Created(c)), {c})
    ensures v.confirmations[c].decision.Pending?
  {
    v := w.(confirmations := w.confirmations[c := P.Confirmation(r.name, r.args, P.Pending)],
            driver := w.driver.(stage := P.Created(c)));
    OneStep(w, P.CreateConfirmation(c), v);
  }

  lemma RequestStep(w: World, r: CallRecord, c: nat) returns (v: World)
    requires StandsAt(w, r, P.Created(c))
    ensures Path(w, [P.LogRequest], v)
    ensures Leaves(w, v, [ConfirmRequest(c, r.id, r.name, r.args)], w.driver.(stage := P.Waiting(c)), {})
    ensures v.confirmations == w.confirmations
  {
    var p := ConfirmRequest(c, r.id, r.name, r.args);
    v := P.Append(w, p).(driver := w.driver.(stage := P.Waiting(c)));
    ExtendOne(w.log, p);
    OneStep(w, P.LogRequest, v);
  }

  lemma ResolveStep(w: World, c: nat, ok: bool) returns (v: World)
    requires c in w.confirmations && w.confirmations[c].decision.Pending?
    ensures Path(w, [P.Resolve(c, ok)], v) && Leaves(w, v, [], w.driver, {})
    ensures c in v.confirmations && v.confirmations[c].decision == if ok then P.Approved else P.Denied
  {
    v := w.(confirmations := w.confirmations[c := w.confirmations[c].(decision := if ok then P.Approved else P.Denied)]);
    OneStep(w, P.Resolve(c, ok), v);
  }

  lemma PollStep(w: World, r: CallRecord, c: nat, ok: bool) returns (v: World)
    requires StandsAt(w, r, P.Waiting(c)) && c in w.confirmations
    requires w.confirmations[c].decision == if ok then P.Approved else P.Denied
    ensures Path(w, [P.Poll], v) && Leaves(w, v, [], w.driver.(stage := P.Decided(c, ok)), {})
  {
    v := w.(driver := w.driver.(stage := P.Decided(c, ok)));
    OneStep(w, P.Poll, v);
  }

  lemma DecisionStep(w: World, r: CallRecord, c: nat, ok: bool) returns (v: World)
    requires StandsAt(w, r, P.Decided(c, ok))
    ensures Path(w, [P.LogDecision], v)
    ensures Leaves(w, v, [ConfirmationResult(c, r.id, r.name, ok)],
                   if ok then w.driver.(stage := P.Cleared(c)) else Slotted(w.driver, P.Refused), {})
  {
    var p := ConfirmationResult(c, r.id, r.name, ok);
    v := P.Append(w, p).(driver := if ok then w.driver.(stage := P.Cleared(c)) else P.AddSlot(w.driver, P.Refused));
    ExtendOne(w.log, p);
    OneStep(w, P.LogDecision, v);
  }

  /** Asking, waiting and logging the verdict. */
  lemma AskHuman(w: World, r: CallRecord, c: nat, ok: bool) returns (steps: seq<Step>, v: World)
    requires StandsAt(w, r, P.NoGate) && Gated(r.name) && w.canConfirm && c !in w.confirmations
    ensures Path(w, steps, v)
    ensures Leaves(w, v, [ConfirmRequest(c, r.id, r.name, r.args), ConfirmationResult(c, r.id, r.name, ok)],
                   if ok then w.driver.(stage := P.Cleared(c)) else Slotted(w.driver, P.Refused), {c})
  {
    hide Path, P.Next;
    var w1 := CreateStep(w, r, c);
    var w2 := RequestStep(w1, r, c);
    var ps := [ConfirmRequest(c, r.id, r.name, r.args)];
    Join(w, [P.CreateConfirmation(c)], w1, [P.LogRequest], w2, [], ps, w1.driver, w2.driver, {c}, {});
    var w3 := ResolveStep(w2, c, ok);
    Join(w, [P.CreateConfirmation(c)] + [P.LogRequest], w2, [P.Resolve(c, ok)], w3, [] + ps, [], w2.driver, w2.driver,
         {c} + {}, {});
    var w4 := PollStep(w3, r, c, ok);
    steps := [P.CreateConfirmation(c)] + [P.LogRequest] + [P.Resolve(c, ok)];
    Join(w, steps, w3, [P.Poll], w4, [] + ps + [], [], w3.driver, w4.driver, {c} + {} + {}, {});
    v := DecisionStep(w4, r, c, ok);
    Join(w, steps + [P.Poll], w4, [P.LogDecision], v, [] + ps + [] + [], [ConfirmationResult(c, r.id, r.name, ok)],
         w4.driver, v.driver, {c} + {} + {} + {}, {});
    steps := steps + [P.Poll] + [P.LogDecision];
    assert [] + ps + [] + [] + [ConfirmationResult(c, r.id, r.name, ok)]
        == [ConfirmRequest(c, r.id, r.name, r.args), ConfirmationResult(c, r.id, r.name, ok)];
    assert {c} + {} + {} + {} + {} == {c};
  }

  function SlotFor(r: CallRecord, pos: nat): P.Slot { if Allowed(r.gate) then P.Admitted(pos) else P.Refused }

  /** The whole gate of one call. */
  lemma PassGate(w: World, r: CallRecord) returns (steps: seq<Step>, v: World, pos: nat)
    requires StandsAt(w, r, P.NoGate) && GateFits(r, w.canConfirm) && AskedBy(r) !! w.confirmations.Keys
    ensures Path(w, steps, v) && Leaves(w, v, Announce(r), Slotted(w.driver, SlotFor(r, pos)), AskedBy(r))
  {
    hide Path, P.Next;
    pos := 0;
    if r.gate.Open? {
      v := AdmitStep(w, r, P.NoGate);
      steps, pos := [P.Admit], |w.log|;
      assert Announce(r) == [ToolCall(r.id, r.name, r.args)];
    } else if r.gate.NoStore? {
      v := w.(driver := P.AddSlot(w.driver, P.Refused));
      steps := [P.RefuseWithoutStore];
      RefuseStep(w, r);
      LeavesNothing(w);
      assert Announce(r) == [];
    } else {
      var c, ok := r.gate.confirmationId, r.gate.approved;
      steps, v := AskHuman(w, r, c, ok);
      if ok {
        var u := v;
        v := AdmitStep(u, r, P.Cleared(c));
        pos := |u.log|;
        Join(w, steps, u, [P.Admit], v, [ConfirmRequest(c, r.id, r.name, r.args), ConfirmationResult(c, r.id, r.name, ok)],
             [ToolCall(r.id, r.name, r.args)], u.driver, v.driver, {c}, {});
        steps := steps + [P.Admit];
        assert {c} + {} == {c};
      } else {
        var asked := [ConfirmRequest(c, r.id, r.name, r.args), ConfirmationResult(c, r.id, r.name, ok)];
        assert asked + [] == asked && Announce(r) == asked;
      }
    }
  }

  lemma RefuseStep(w: World, r: CallRecord)
    requires StandsAt(w, r, P.NoGate) && Gated(r.name) && !w.canConfirm
    ensures Path(w, [P.RefuseWithoutStore], w.(driver := P.AddSlot(w.driver, P.Refused)))
  {
    OneStep(w, P.RefuseWithoutStore, w.(driver := P.AddSlot(w.driver, P.Refused)));
  }

  function AskedIn(rs: seq<CallRecord>): set<nat> {
    if rs == [] then {} else AskedBy(rs[0]) + AskedIn(rs[1..])
  }

  /** Every confirmation is a new one. */
  predicate FreshlyAsked(rs: seq<CallRecord>, known: set<nat>) {
    rs == [] || (AskedBy(rs[0]) !! known && FreshlyAsked(rs[1..], known + AskedBy(rs[0])))
  }

  /** Refused and admitted calls, as the gates decided. */
  ghost predicate SlotsFit(slots: seq<P.Slot>, rs: seq<CallRecord>) {
    |slots| <= |rs| && forall i | 0 <= i < |slots| :: slots[i].Admitted? <==> Allowed(rs[i].gate)
  }

  /** All gates of a turn, from the `k`-th call on. */
  lemma {:induction false} PassGates(w: World, rs: seq<CallRecord>, k: nat) returns (steps: seq<Step>, v: World)
    requires k <= |rs| && w.driver.Announcing? && w.driver.stage.NoGate? && w.driver.turn.calls == Requests(rs)
    requires |w.driver.turn.slots| == k && SlotsFit(w.driver.turn.slots, rs)
    requires (forall i | 0 <= i < |rs| :: GateFits(rs[i], w.canConfirm)) && FreshlyAsked(rs[k..], w.confirmations.Keys)
    ensures Path(w, steps, v) && Leaves(w, v, AnnounceAll(rs[k..]), v.driver, AskedIn(rs[k..]))
    ensures v.driver.Announcing? && v.driver.stage.NoGate? && v.driver.turn.(slots := []) == w.driver.turn.(slots := [])
    ensures |v.driver.turn.slots| == |rs| && SlotsFit(v.driver.turn.slots, rs)
    decreases |rs| - k
  {
    hide Path, P.Next, GateFits, Announce;
    if k == |rs| {
      steps, v := [], w;
      LeavesNothing(w);
      assert rs[k..] == [];
    } else {
      var r := rs[k];
      assert rs[k..][0] == r && rs[k..][1..] == rs[k + 1..];
      var xs, u, pos := PassGate(w, r);
      var ys;
      ys, v := PassGates(u, rs, k + 1);
      Join(w, xs, u, ys, v, Announce(r), AnnounceAll(rs[k + 1..]), u.driver, v.driver, AskedBy(r), AskedIn(rs[k + 1..]));
      steps := xs + ys;
    }
  }

  // ---------------------------------------------------------------- the work of a turn

  lemma RunOne(w: World, i: nat) returns (steps: seq<Step>, v: World)
    requires w.driver.Working? && i < |w.driver.turn.slots| && w.driver.turn.slots[i].Admitted? && i !in w.driver.started
    ensures Path(w, steps, v)
    ensures Leaves(w, v, [], w.driver.(started := w.driver.started + {i}, finished := w.driver.finished + {i}), {})
  {
    hide Path;
    var u := w.(executed := w.executed + [w.driver.turn.slots[i].pos], driver := w.driver.(started := w.driver.started + {i}));
    OneStep(w, P.Execute(i), u);
    v := u.(driver := u.driver.(finished := u.driver.finished + {i}));
    OneStep(u, P.Complete(i), v);
    PathJoins(w, [P.Execute(i)], u, [P.Complete(i)], v);
    steps := [P.Execute(i)] + [P.Complete(i)];
  }

  lemma {:induction false} RunAll(w: World, k: nat) returns (steps: seq<Step>, v: World)
    requires w.driver.Working? && k <= |w.driver.turn.slots|
    requires forall i | 0 <= i < k && w.driver.turn.slots[i].Admitted? :: i in w.driver.finished
    requires forall i | i in w.driver.started :: i < k
    ensures Path(w, steps, v) && Leaves(w, v, [], v.driver, {})
    ensures v.driver.Working? && v.driver.turn == w.driver.turn && P.AllFinished(v.driver)
    decreases |w.driver.turn.slots| - k
  {
    hide Path, P.Next;
    if k == |w.driver.turn.slots| {
      steps, v := [], w;
      LeavesNothing(w);
    } else if w.driver.turn.slots[k].Admitted? {
      var xs, u := RunOne(w, k);
      var ys;
      ys, v := RunAll(u, k + 1);
      Join(w, xs, u, ys, v, [], [], u.driver, v.driver, {}, {});
      steps := xs + ys;
    } else {
      steps, v := RunAll(w, k + 1);
    }
  }

  /** From the last gate to the first report. */
  lemma WorkTurn(w: World) returns (steps: seq<Step>, v: World)
    requires w.driver.Announcing? && w.driver.stage.NoGate? && |w.driver.turn.slots| == |w.driver.turn.calls|
    ensures Path(w, steps, v) && Leaves(w, v, [], P.Reporting(w.driver.turn, 0), {})
  {
    hide Path;
    var u := w.(driver := P.Working(w.driver.turn, {}, {}));
    OneStep(w, P.StartWork, u);
    LeavesNothing(w);
    var xs, x := RunAll(u, 0);
    Join(w, [P.StartWork], u, xs, x, [], [], u.driver, x.driver, {}, {});
    v := x.(driver := P.Reporting(x.driver.turn, 0));
    OneStep(x, P.Gather, v);
    Join(w, [P.StartWork] + xs, x, [P.Gather], v, [] + [], [], x.driver, v.driver, {} + {}, {});
    steps := [P.StartWork] + xs + [P.Gather];
  }

  // ---------------------------------------------------------------- the reports of a turn

  function OutcomePayload(r: CallRecord, failures: nat): Payload {
    match r.outcome
    case Failure(message) => ToolError(r.id, r.name, message, failures)
    case Success(result) => ToolResult(r.id, r.name, result)
  }

  predicate PlanNoted(r: CallRecord) { r.outcome.Success? && r.name == UpdatePlan }

  predicate VerificationNoted(r: CallRecord) { r.outcome.Success? && r.verified }

  function NoteIf(b: bool, kind: NoticeKind): seq<Payload> { if b then [Notice(kind)] else [] }

  lemma ReportInParts(r: CallRecord, failures: nat)
    ensures Report(r, failures)
            == NoteIf(PlanNoted(r), PlanUpdate) + [OutcomePayload(r, failures)] + NoteIf(VerificationNoted(r), Verification)
  {
  }

  /** The reports reach the `k`-th call of the turn. */
  ghost predicate ReportsAt(w: World, rs: seq<CallRecord>, k: nat) {
    && w.driver.Reporting? && w.driver.reported == k && w.driver.turn.calls == Requests(rs)
    && |w.driver.turn.slots| == |rs| && SlotsFit(w.driver.turn.slots, rs)
    && forall i | 0 <= i < |rs| :: !Allowed(rs[i].gate) ==> rs[i].outcome.Failure?
  }

  lemma OutcomeStep(w: World, rs: seq<CallRecord>, k: nat, failures: nat) returns (v: World)
    requires ReportsAt(w, rs, k) && k < |rs|
    ensures var p := OutcomePayload(rs[k], failures);
            Path(w, [P.Report(p)], v) && Leaves(w, v, [p], w.driver.(reported := k + 1), {})
  {
    var p := OutcomePayload(rs[k], failures);
    v := P.Append(w, p).(driver := w.driver.(reported := k + 1));
    ExtendOne(w.log, p);
    OneStep(w, P.Report(p), v);
  }

  lemma ReportOne(w: World, rs: seq<CallRecord>, k: nat, failures: nat) returns (steps: seq<Step>, v: World)
    requires ReportsAt(w, rs, k) && k < |rs|
    ensures Path(w, steps, v) && Leaves(w, v, Report(rs[k], failures), w.driver.(reported := k + 1), {})
  {
    hide Path, P.Next;
    var r := rs[k];
    var p := OutcomePayload(r, failures);
    var xs, x := MaybeNote(w, PlanNoted(r), PlanUpdate);
    var y := OutcomeStep(x, rs, k, failures);
    Join(w, xs, x, [P.Report(p)], y, NoteIf(PlanNoted(r), PlanUpdate), [p], x.driver, y.driver, {}, {});
    var zs;
    zs, v := MaybeNote(y, VerificationNoted(r), Verification);
    Join(w, xs + [P.Report(p)], y, zs, v, NoteIf(PlanNoted(r), PlanUpdate) + [p], NoteIf(VerificationNoted(r), Verification),
         y.driver, v.driver, {} + {}, {});
    ReportInParts(r, failures);
    steps := xs + [P.Report(p)] + zs;
  }

  lemma {:induction false} ReportAllOf(w: World, rs: seq<CallRecord>, k: nat, failures: map<ToolName, nat>)
      returns (steps: seq<Step>, v: World)
    requires k <= |rs| && ReportsAt(w, rs, k)
    ensures Path(w, steps, v) && Leaves(w, v, ReportAll(failures, rs[k..]), w.driver.(reported := |rs|), {})
    decreases |rs| - k
  {
    hide Path, P.Next, Report;
    if k == |rs| {
      steps, v := [], w;
      LeavesNothing(w);
      assert rs[k..] == [];
    } else {
      var r := rs[k];
      assert rs[k..][0] == r && rs[k..][1..] == rs[k + 1..];
      var f := CountReport(failures, r.name, r.outcome);
      var xs, u := ReportOne(w, rs, k, CountOf(f, r.name));
      var ys;
      ys, v := ReportAllOf(u, rs, k + 1, f);
      Join(w, xs, u, ys, v, Report(r, CountOf(f, r.name)), ReportAll(f, rs[k + 1..]), u.driver, v.driver, {}, {});
      steps := xs + ys;
    }
  }

  // ---------------------------------------------------------------- a whole turn

  ghost predicate TurnFits(t: Turn, canConfirm: bool, known: set<nat>) {
    && t.records != [] && DistinctIds(t.records) && FreshlyAsked(t.records, known)
    && forall i | 0 <= i < |t.records| :: GateFits(t.records[i], canConfirm)
  }

  /** The model's reply, up to the first gate. */
  lemma OpenTurn(w: World, t: Turn) returns (steps: seq<Step>, v: World)
    requires w.driver.Idle? && t.records != [] && DistinctIds(t.records)
    ensures Path(w, steps, v)
    ensures Leaves(w, v, Opening(t.text, t.usage), P.Announcing(P.TurnState(|v.log|, Requests(t.records), []), P.NoGate), {})
  {
    hide Path, P.Next, DistinctIds;
    var xs, x := MaybeNote(w, t.usage, Usage);
    v := AskStep(x, t.text, t.records);
    var ask := P.AskModel(t.text, Requests(t.records));
    Join(w, xs, x, [ask], v, NoteIf(t.usage, Usage), TextOf(t.text), x.driver, v.driver, {}, {});
    steps := xs + [ask];
  }

  /** From the first gate to the first report. */
  lemma GateAndWork(w: World, rs: seq<CallRecord>) returns (steps: seq<Step>, v: World)
    requires w.driver.Announcing? && w.driver.stage.NoGate? && w.driver.turn.calls == Requests(rs) && w.driver.turn.slots == []
    requires (forall i | 0 <= i < |rs| :: GateFits(rs[i], w.canConfirm)) && FreshlyAsked(rs, w.confirmations.Keys)
    ensures Path(w, steps, v) && Leaves(w, v, AnnounceAll(rs), v.driver, AskedIn(rs)) && ReportsAt(v, rs, 0)
  {
    hide Path, P.Next, GateFits, FreshlyAsked;
    assert rs[0..] == rs;
    var xs, x := PassGates(w, rs, 0);
    var ys;
    ys, v := WorkTurn(x);
    Join(w, xs, x, ys, v, AnnounceAll(rs), [], x.driver, v.driver, AskedIn(rs), {});
    FailuresOfRefused(rs, w.canConfirm);
    assert AnnounceAll(rs) + [] == AnnounceAll(rs) && AskedIn(rs) + {} == AskedIn(rs);
    steps := xs + ys;
  }

  /** From the first report to the next turn. */
  lemma ReportAndClose(w: World, rs: seq<CallRecord>, failures: map<ToolName, nat>) returns (steps: seq<Step>, v: World)
    requires ReportsAt(w, rs, 0)
    ensures Path(w, steps, v) && Leaves(w, v, ReportAll(failures, rs), P.Idle, {})
  {
    hide Path, P.Next;
    assert rs[0..] == rs;
    var xs, x := ReportAllOf(w, rs, 0, failures);
    v := NextTurnStep(x);
    Join(w, xs, x, [P.NextTurn], v, ReportAll(failures, rs), [], x.driver, v.driver, {}, {});
    assert ReportAll(failures, rs) + [] == ReportAll(failures, rs);
    steps := xs + [P.NextTurn];
  }

  lemma DoTurn(w: World, t: Turn) returns (steps: seq<Step>, v: World)
    requires w.driver.Idle? && TurnFits(t, w.canConfirm, w.confirmations.Keys)
    ensures Path(w, steps, v) && Leaves(w, v, EmitTurn(t), P.Idle, AskedIn(t.records))
  {
    hide Path, P.Next, GateFits, FreshlyAsked, DistinctIds, Opening, AnnounceAll, ReportAll, AskedIn, ReportsAt;
    var rs := t.records;
    var xs, x := OpenTurn(w, t);
    KnownStay(w, x, Opening(t.text, t.usage), x.driver);
    var ys, y := GateAndWork(x, rs);
    Join(w, xs, x, ys, y, Opening(t.text, t.usage), AnnounceAll(rs), x.driver, y.driver, {}, AskedIn(rs));
    var zs;
    zs, v := ReportAndClose(y, rs, t.failures);
    Join(w, xs + ys, y, zs, v, Opening(t.text, t.usage) + AnnounceAll(rs), ReportAll(t.failures, rs), y.driver, v.driver,
         {} + AskedIn(rs), {});
    assert {} + AskedIn(rs) + {} == AskedIn(rs);
    steps := xs + ys + zs;
  }

  lemma KnownStay(w: World, v: World, ps: seq<Payload>, d: P.Driver)
    requires Leaves(w, v, ps, d, {})
    ensures v.confirmations.Keys == w.confirmations.Keys && v.canConfirm == w.canConfirm
  {
  }

  lemma FailuresOfRefused(rs: seq<CallRecord>, canConfirm: bool)
    requires forall i | 0 <= i < |rs| :: GateFits(rs[i], canConfirm)
    ensures forall i | 0 <= i < |rs| :: !Allowed(rs[i].gate) ==> rs[i].outcome.Failure?
  {
  }

  lemma NextTurnStep(w: World) returns (v: World)
    requires w.driver.Reporting? && w.driver.reported == |w.driver.turn.slots|
    ensures Path(w, [P.NextTurn], v) && Leaves(w, v, [], P.Idle, {})
  {
    v := w.(driver := P.Idle);
    OneStep(w, P.NextTurn, v);
  }

  // ---------------------------------------------------------------- a whole run of the loop

  /** The confirmations asked for in the first `k` turns. */
  function AskedBefore(cfg: Config, script: Script, k: nat): set<nat>
    requires k <= |script|
  {
    if k == 0 then {} else AskedBefore(cfg, script, k - 1) + AskedIn(TurnAt(cfg, script, k - 1).records)
  }

  /** The ids of each turn's calls are distinct, and every confirmation is a new one. */
  ghost predicate WellIdentified(cfg: Config, script: Script, k: nat)
    requires k <= |script|
  {
    forall i | 0 <= i < k ::
      DistinctIds(TurnAt(cfg, script, i).records) && FreshlyAsked(TurnAt(cfg, script, i).records, AskedBefore(cfg, script, i))
  }

  lemma TurnAtFits(cfg: Config, script: Script, k: nat)
    requires k < |script| && IsToolTurn(script[k])
    requires DistinctIds(TurnAt(cfg, script, k).records)
    requires FreshlyAsked(TurnAt(cfg, script, k).records, AskedBefore(cfg, script, k))
    ensures TurnFits(TurnAt(cfg, script, k), cfg.canConfirm, AskedBefore(cfg, script, k))
  {
    hide FreshlyAsked, DistinctIds, AskedBefore;
  }

  lemma BeforeFirst(cfg: Config, start: seq<Message>, script: Script)
    ensures EventsBefore(cfg, start, script, 0) == [] && AskedBefore(cfg, script, 0) == {}
  {
  }

  lemma BeforeNext(cfg: Config, start: seq<Message>, script: Script, k: nat)
    requires k < |script|
    ensures var t := TurnAt(cfg, script, k);
            && EventsBefore(cfg, start, script, k + 1)
                   == EventsBefore(cfg, start, script, k) + CompactionEvents(cfg, start, script, k) + EmitTurn(t)
            && AskedBefore(cfg, script, k + 1) == AskedBefore(cfg, script, k) + AskedIn(t.records)
  {
  }

  /** The first `k` turns of the loop are a path of the protocol from any fresh world. */
  lemma {:induction false} TurnsAreAPath(cfg: Config, start: seq<Message>, script: Script, k: nat, w: World)
      returns (steps: seq<Step>, v: World)
    requires ToolTurns(script, k) && WellIdentified(cfg, script, k)
    requires w.driver.Idle? && w.confirmations == map[] && w.canConfirm == cfg.canConfirm
    ensures Path(w, steps, v) && Leaves(w, v, EventsBefore(cfg, start, script, k), P.Idle, AskedBefore(cfg, script, k))
    decreases k
  {
    hide Path, P.Next, EmitTurn, TurnAt, PlayTurn, Compacts, ConvoBefore, DistinctIds, FreshlyAsked, TurnFits, AskedIn,
      EventsBefore, AskedBefore;
    BeforeFirst(cfg, start, script);
    if k == 0 {
      steps, v := [], w;
      LeavesNothing(w);
    } else {
      var xs, x := TurnsAreAPath(cfg, start, script, k - 1, w);
      var b := Compacts(ConvoBefore(cfg, start, script, k - 1), script[k - 1].compaction);
      var ys, y := MaybeNote(x, b, NoticeKind.Compaction);
      var before, note := EventsBefore(cfg, start, script, k - 1), CompactionEvents(cfg, start, script, k - 1);
      var asked := AskedBefore(cfg, script, k - 1);
      Join(w, xs, x, ys, y, before, note, x.driver, y.driver, asked, {});
      var t := TurnAt(cfg, script, k - 1);
      TurnAtFits(cfg, script, k - 1);
      BeforeNext(cfg, start, script, k - 1);
      assert y.confirmations.Keys == asked;
      var zs;
      zs, v := DoTurn(y, t);
      Join(w, xs + ys, y, zs, v, before + note, EmitTurn(t), y.driver, v.driver, asked + {}, AskedIn(t.records));
      assert asked + {} == asked;
      steps := xs + ys + zs;
    }
  }

  lemma EndStep(w: World, text: string, ending: Payload, result: P.Status) returns (v: World)
    requires w.driver.Idle? && P.EndsRun(ending, result)
    ensures Path(w, [P.EndRun(text, ending, result)], v)
    ensures Leaves(w, v, TextOf(text) + [ending], P.Closing(result), {})
  {
    TextIsAppended(w, text);
    v := P.Append(P.AppendText(w, text), ending).(driver := P.Closing(result));
    ExtendOne(Extend(w.log, TextOf(text)), ending);
    ExtendTwice(w.log, TextOf(text), [ending]);
    OneStep(w, P.EndRun(text, ending, result), v);
  }

  /** A noted, worded and ended run. */
  lemma EndWith(w: World, usage: bool, text: string, ending: Payload, result: P.Status) returns (steps: seq<Step>, v: World)
    requires w.driver.Idle? && P.EndsRun(ending, result)
    ensures Path(w, steps, v) && Leaves(w, v, Opening(text, usage) + [ending], P.Closing(result), {})
  {
    hide Path, P.Next;
    var xs, x := MaybeNote(w, usage, Usage);
    v := EndStep(x, text, ending, result);
    var end := P.EndRun(text, ending, result);
    Join(w, xs, x, [end], v, NoteIf(usage, Usage), TextOf(text) + [ending], x.driver, v.driver, {}, {});
    assert NoteIf(usage, Usage) + (TextOf(text) + [ending]) == Opening(text, usage) + [ending];
    steps := xs + [end];
  }

  /** How a run that ends this way is recorded. */
  function ResultOf(script: Script, k: nat, synthesis: Reply): P.Status
    requires k <= |script|
  {
    if k < |script| then (if script[k].reply.LlmFails? then P.Failed else P.Completed)
    else if synthesis.Says? && synthesis.text != "" then P.Completed
    else P.Incomplete
  }

  lemma CloseRun(cfg: Config, start: seq<Message>, script: Script, k: nat, synthesis: Reply, w: World)
      returns (steps: seq<Step>, v: World)
    requires k <= |script| && w.driver.Idle?
    ensures Path(w, steps, v)
    ensures Leaves(w, v, ClosingEvents(cfg, start, script, k, synthesis), P.Closing(ResultOf(script, k, synthesis)), {})
  {
    hide Path, P.Next, Compacts, ConvoBefore, Opening;
    var result := ResultOf(script, k, synthesis);
    if k < |script| {
      var b := Compacts(ConvoBefore(cfg, start, script, k), script[k].compaction);
      var xs, x := MaybeNote(w, b, NoticeKind.Compaction);
      var note := CompactionEvents(cfg, start, script, k);
      var ys, ps;
      match script[k].reply {
        case LlmFails(message) =>
          NoOpening();
          ps := Opening("", false) + [Error(message)];
          assert ps == [Error(message)];
          ys, v := EndWith(x, false, "", Error(message), result);
        case Says(text, usage, _) =>
          ps := Opening(text, usage) + [Done(text, Final)];
          ys, v := EndWith(x, usage, text, Done(text, Final), result);
      }
      Join(w, xs, x, ys, v, note, ps, x.driver, v.driver, {}, {});
      steps := xs + ys;
    } else if synthesis.Says? {
      var ending := if synthesis.text != "" then Done(synthesis.text, Synthesized) else Done(cfg.wording.limit, BudgetExhausted);
      steps, v := EndWith(w, synthesis.usage, synthesis.text, ending, result);
    } else {
      NoOpening();
      assert Opening("", false) + [Done(cfg.wording.limit, BudgetExhausted)] == [Done(cfg.wording.limit, BudgetExhausted)];
      steps, v := EndWith(w, false, "", Done(cfg.wording.limit, BudgetExhausted), result);
    }
  }

  lemma NoOpening()
    ensures Opening("", false) == []
  {
  }

  /** Whatever the world answers, the events of the whole loop, numbered in their order, are the log of a run of the
      protocol that ends with the run recorded as the loop ended - provided the ids of each turn's calls are distinct
      and every confirmation is a new one. */
  lemma ChatIsARun(cfg: Config, messages: seq<Message>, memories: string, script: Script, synthesis: Reply)
      returns (ws: seq<World>, steps: seq<Step>)
    requires WellIdentified(cfg, script, TurnsTaken(script))
    ensures P.IsRun(ws, steps)
    ensures var start, k, end := StartMessages(cfg, messages, memories), TurnsTaken(script), ws[|ws| - 1];
            && end.log == Extend([], EventsBefore(cfg, start, script, k) + ClosingEvents(cfg, start, script, k, synthesis))
            && end.status == ResultOf(script, k, synthesis) && end.driver.Down?
  {
    hide Path, P.Next, EventsBefore, ClosingEvents;
    var start, k := StartMessages(cfg, messages, memories), TurnsTaken(script);
    var w := P.World([], P.Running, map[], [], P.Idle, cfg.canConfirm);
    TurnsTakenAreToolTurns(script);
    var xs, x := TurnsAreAPath(cfg, start, script, k, w);
    var ys, y := CloseRun(cfg, start, script, k, synthesis, x);
    Join(w, xs, x, ys, y, EventsBefore(cfg, start, script, k), ClosingEvents(cfg, start, script, k, synthesis),
         x.driver, y.driver, AskedBefore(cfg, script, k), {});
    var v := FinishStep(y);
    PathJoins(w, xs + ys, y, [P.FinishRun], v);
    steps := xs + ys + [P.FinishRun];
    ws := PathIsRun(w, steps, v);
  }

  lemma FinishStep(w: World) returns (v: World)
    requires w.driver.Closing?
    ensures Path(w, [P.FinishRun], v) && v == w.(status := w.driver.result, driver := P.Down)
  {
    v := w.(status := w.driver.result, driver := P.Down);
    OneStep(w, P.FinishRun, v);
  }

  lemma {:induction false} TurnsTakenAreToolTurns(script: Script)
    ensures ToolTurns(script, TurnsTaken(script))
  {
    if script != [] && IsToolTurn(script[0]) {
      TurnsTakenAreToolTurns(script[1..]);
      assert forall i | 0 < i < TurnsTaken(script) :: script[i] == script[1..][i - 1];
    }
  }
}
