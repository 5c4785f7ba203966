/** The evidence read model: what a campaign's log says about each of its interviews.

    Interviews' rows are kept in one map and updated event by event. Times are integers; the final ordering for
    display is left out, and turns stay in log order. */
module Evidence {
  import opened Wrappers
  import opened Interview
  import opened InterviewRun

  datatype Body =
    | InviteDispatched(respondent: nat, externalId: string)
    | RespondentJoined(interview: nat, respondent: nat, source: string, channel: string)
    | InterviewStarted(interview: nat)
    | InterviewEvent(interview: nat, event: Event)
    | InterviewAbandoned(interview: nat)
    | OtherEvent

  datatype Logged = Logged(campaign: nat, ts: int, body: Body)

  datatype Status = InProgress | Completed | Abandoned

  datatype TurnView = TurnView(order: nat, role: Role, text: string, ts: int)

  datatype Row = Row(
    respondent: nat, source: string, channel: string, externalRef: Option<string>, status: Status,
    startedAt: Option<int>, completedAt: Option<int>, duration: Option<int>, goalCoverage: real,
    turns: seq<TurnView>, covered: set<nat>)

  const DIRECT := "direct"
  const WEB_TEXT := "web_text"

  function NewRow(id: nat): Row {
    Row(id, DIRECT, WEB_TEXT, None, InProgress, None, None, None, 0.0, [], {})
  }

  function Orelse<T>(o: Option<T>, default_: Option<T>): Option<T> { if o.Some? then o else default_ }

  /** Which interview an event is about. */
  function About(b: Body): Option<nat> {
    match b
    case RespondentJoined(i, _, _, _) => Some(i)
    case InterviewStarted(i) => Some(i)
    case InterviewEvent(i, _) => Some(i)
    case InterviewAbandoned(i) => Some(i)
    case _ => None
  }

  /** The guide items a turn may count for: all, when the caller names no guide. */
  predicate Counted(guide: Option<seq<nat>>, id: nat) { guide.None? || id in guide.value }

  function Refers(guide: Option<seq<nat>>, e: Event): set<nat> {
    if e.TurnRecorded? && e.role.Interviewer? && e.item.Some? && Counted(guide, e.item.value) then {e.item.value} else {}
  }

  /** What one event does to its interview's row. */
  function Update(row: Row, e: Logged, refs: map<nat, string>, guide: Option<seq<nat>>): Row {
    match e.body
    case RespondentJoined(_, respondent, source, channel) =>
      row.(respondent := respondent, source := if source == "" then DIRECT else source, channel := channel,
           externalRef := if respondent in refs then Some(refs[respondent]) else None, startedAt := Some(e.ts))
    case InterviewStarted(_) => row.(startedAt := Orelse(row.startedAt, Some(e.ts)))
    case InterviewEvent(_, TurnRecorded(order, role, text, item)) =>
      row.(covered := row.covered + Refers(guide, e.body.event), turns := row.turns + [TurnView(order, role, text, e.ts)])
    case InterviewEvent(_, InterviewCompleted(duration, coverage)) =>
      row.(status := Completed, completedAt := Some(e.ts), duration := Some(duration), goalCoverage := coverage)
    case InterviewAbandoned(_) => row.(status := Abandoned, completedAt := Some(e.ts))
    case _ => row
  }

  function SetOf(s: seq<nat>): set<nat> { set x | x in s }

  /** The coverage shown: for a completed interview, not less than what its recorded turns refer to. */
  function Shown(row: Row, guide: Option<seq<nat>>): real {
    if row.status.Completed? && guide.Some? && guide.value != [] then
      var covered := row.covered + if row.turns != [] then {guide.value[0]} else {};
      var rebuilt := Ratio(|covered * SetOf(guide.value)|, |SetOf(guide.value)|);
      if row.goalCoverage < rebuilt then rebuilt else row.goalCoverage
    else row.goalCoverage
  }

  function Ratio(part: nat, whole: nat): real { if whole == 0 then 0.0 else part as real / whole as real }

  // ---------------------------------------------------------------- what a log says about one interview

  function Refs(log: seq<Logged>, campaign: nat): map<nat, string> {
    if log == [] then map[]
    else
      var e, before := log[|log| - 1], Refs(log[..|log| - 1], campaign);
      if e.campaign == campaign && e.body.InviteDispatched? && e.body.externalId != ""
          then before[e.body.respondent := e.body.externalId]
      else before
  }

  predicate Concerns(e: Logged, campaign: nat, i: nat) { e.campaign == campaign && About(e.body) == Some(i) }

  function RowOf(log: seq<Logged>, campaign: nat, i: nat, guide: Option<seq<nat>>): Option<Row> {
    if log == [] then None
    else
      var before, e := log[..|log| - 1], log[|log| - 1];
      var row := RowOf(before, campaign, i, guide);
      if Concerns(e, campaign, i) then Some(Update(if row.Some? then row.value
          else NewRow(i), e, Refs(before, campaign), guide)) else row
  }

  /** One loop over the log fills the rows, a second one settles the coverage. Every interview of the campaign gets
      the row its own events make, whatever else is in the log. */
  method BuildEvidence(campaign: nat, log: seq<Logged>, guide: Option<seq<nat>>) returns (rows: map<nat, Row>)
    ensures forall i :: i in rows <==> RowOf(log, campaign, i, guide).Some?
    ensures forall i | i in rows ::
              var row := RowOf(log, campaign, i, guide).value;
              rows[i] == row.(goalCoverage := Shown(row, guide))
  {
    hide Update, Shown;
    rows := map[];
    var refs: map<nat, string> := map[];
    for k := 0 to |log|
      invariant refs == Refs(log[..k], campaign)
      invariant forall i :: i in rows <==> RowOf(log[..k], campaign, i, guide).Some?
      invariant forall i | i in rows :: rows[i] == RowOf(log[..k], campaign, i, guide).value
    {
      var e := log[k];
      assert log[..k + 1][..k] == log[..k] && log[..k + 1][k] == e;
      if e.campaign == campaign {
        if e.body.InviteDispatched? {
          if e.body.externalId != "" {
            refs := refs[e.body.respondent := e.body.externalId];
          }
        } else if About(e.body).Some? {
          var i := About(e.body).value;
          rows := rows[i := Update(if i in rows then rows[i] else NewRow(i), e, refs, guide)];
        }
      }
    }
    assert log[..|log|] == log;
    ghost var filled := rows;
    var left := rows.Keys;
    while left != {}
      invariant left <= rows.Keys == filled.Keys
      invariant forall i | i in rows :: rows[i]
                    == if i in left then filled[i] else filled[i].(goalCoverage := Shown(filled[i], guide))
      decreases left
    {
      var i :| i in left;
      rows := rows[i := rows[i].(goalCoverage := Shown(rows[i], guide))];
      left := left - {i};
    }
  }

  // ---------------------------------------------------------------- what a row says, column by column

  predicate IsJoin(e: Logged, campaign: nat, i: nat) {
    e.campaign == campaign && e.body.RespondentJoined? && e.body.interview == i
  }

  predicate IsStart(e: Logged, campaign: nat, i: nat) { e.campaign == campaign && e.body == InterviewStarted(i) }

  predicate IsTurn(e: Logged, campaign: nat, i: nat) {
    e.campaign == campaign && e.body.InterviewEvent? && e.body.interview == i && e.body.event.TurnRecorded?
  }

  predicate IsCompletion(e: Logged, campaign: nat, i: nat) {
    e.campaign == campaign && e.body.InterviewEvent? && e.body.interview == i && e.body.event.InterviewCompleted?
  }

  predicate IsEnd(e: Logged, campaign: nat, i: nat) {
    IsCompletion(e, campaign, i) || (e.campaign == campaign && e.body == InterviewAbandoned(i))
  }

  predicate Names(e: Logged, campaign: nat, respondent: nat) {
    e.campaign == campaign && e.body.InviteDispatched? && e.body.respondent == respondent && e.body.externalId != ""
  }

  /** The last and the first event of a kind. */
  function Last(log: seq<Logged>, kind: Logged -> bool): (k: Option<nat>)
    ensures k.Some? ==> k.value < |log| && kind(log[k.value])
    ensures forall j | 0 <= j < |log| && kind(log[j]) :: k.Some? && j <= k.value
  {
    if log == [] then None else if kind(log[|log| - 1]) then Some(|log| - 1) else Last(log[..|log| - 1], kind)
  }

  function First(log: seq<Logged>, kind: Logged -> bool): (k: Option<nat>)
    ensures k.Some? ==> k.value < |log| && kind(log[k.value])
    ensures forall j | 0 <= j < |log| && kind(log[j]) :: k.Some? && k.value <= j
  {
    if log == [] then None
    else
      var k := First(log[..|log| - 1], kind);
      if k.Some? then k else if kind(log[|log| - 1]) then Some(|log| - 1) else None
  }

  /** Where an interview's turns stand in the log: all of them, in order. */
  function TurnPlaces(log: seq<Logged>, campaign: nat, i: nat): (at: seq<nat>)
    ensures forall k | 0 <= k < |at| :: at[k] < |log| && IsTurn(log[at[k]], campaign, i)
    ensures forall j, k | 0 <= j < k < |at| :: at[j] < at[k]
    ensures forall p: nat | p < |log| && IsTurn(log[p], campaign, i) :: p in at
  {
    if log == [] then []
    else
      var n := |log| - 1;
      TurnPlaces(log[..n], campaign, i) + if IsTurn(log[n], campaign, i) then [n] else []
  }

  ghost predicate TellsTurns(row: Row, log: seq<Logged>, campaign: nat, i: nat) {
    var at := TurnPlaces(log, campaign, i);
    && |row.turns| == |at|
    && forall k | 0 <= k < |at| ::
         var t, e := row.turns[k], log[at[k]];
         && t.order == e.body.event.order && t.role == e.body.event.role && t.text == e.body.event.text && t.ts == e.ts
  }

  /** The last join says who takes part and when it began, and the last earlier invite that names the respondent what
      they are called outside; without a join there are the defaults and the time of the first start. */
  ghost predicate TellsJoin(row: Row, log: seq<Logged>, campaign: nat, i: nat) {
    match Last(log, e => IsJoin(e, campaign, i))
    case None =>
      && row.respondent == i && row.source == "direct" && row.channel == "web_text" && row.externalRef.None?
      && (var k := First(log, e => IsStart(e, campaign, i));
          row.startedAt == if k.Some? then Some(log[k.value].ts) else None)
    case Some(k) =>
      var join := log[k].body;
      && row.respondent == join.respondent && row.channel == join.channel && row.startedAt == Some(log[k].ts)
      && row.source == (if join.source == "" then "direct" else join.source)
      && (var j := Last(log[..k], e => Names(e, campaign, join.respondent));
          row.externalRef == if j.Some? then Some(log[j.value].body.externalId) else None)
  }

  ghost predicate TellsEnd(row: Row, log: seq<Logged>, campaign: nat, i: nat) {
    && (match Last(log, e => IsCompletion(e, campaign, i))
        case None => row.duration.None? && row.goalCoverage == 0.0
        case Some(k) => row.duration == Some(log[k].body.event.duration) && row.goalCoverage == log[k].body.event.coverage)
    && (match Last(log, e => IsEnd(e, campaign, i))
        case None => row.completedAt.None? && row.status.InProgress?
        case Some(k) => row.completedAt == Some(log[k].ts) && (row.status.InProgress? <==> false)
                        && (row.status.Completed? <==> IsCompletion(log[k], campaign, i)))
  }

  /** The row as it stands, or as it would be begun. */
  function Current(log: seq<Logged>, campaign: nat, i: nat, guide: Option<seq<nat>>): Row {
    var row := RowOf(log, campaign, i, guide);
    if row.Some? then row.value else NewRow(i)
  }

  /** For every log: an interview has a row if and only if some event of the campaign is about it, and each column says
      what the log says. */
  lemma {:induction false} RowTells(log: seq<Logged>, campaign: nat, i: nat, guide: Option<seq<nat>>)
    ensures RowOf(log, campaign, i, guide).Some? <==> exists k :: 0 <= k < |log| && Concerns(log[k], campaign, i)
    ensures var row := Current(log, campaign, i, guide);
            TellsTurns(row, log, campaign, i) && TellsJoin(row, log, campaign, i) && TellsEnd(row, log, campaign, i)
    decreases |log|
  {
    hide TellsTurns, TellsJoin, TellsEnd, Update, Concerns, NewRow;
    if log == [] {
      NothingTold(campaign, i);
    } else {
      var before, e := log[..|log| - 1], log[|log| - 1];
      RowTells(before, campaign, i, guide);
      assert forall k | 0 <= k < |before| :: log[k] == before[k];
      var row := Current(before, campaign, i, guide);
      TurnsStep(row, log, campaign, i, guide);
      JoinStep(row, log, campaign, i, guide);
      EndStep(row, log, campaign, i, guide);
    }
  }

  function Moved(row: Row, log: seq<Logged>, campaign: nat, i: nat, guide: Option<seq<nat>>): Row
    requires log != []
  {
    var n := |log| - 1;
    if Concerns(log[n], campaign, i) then Update(row, log[n], Refs(log[..n], campaign), guide) else row
  }

  lemma NothingTold(campaign: nat, i: nat)
    ensures var row := NewRow(i);
            TellsTurns(row, [], campaign, i) && TellsJoin(row, [], campaign, i) && TellsEnd(row, [], campaign, i)
  {
  }

  lemma TurnsStep(row: Row, log: seq<Logged>, campaign: nat, i: nat, guide: Option<seq<nat>>)
    requires log != [] && TellsTurns(row, log[..|log| - 1], campaign, i)
    ensures TellsTurns(Moved(row, log, campaign, i, guide), log, campaign, i)
  {
    hide Refs, Update;
    var n := |log| - 1;
    var at := TurnPlaces(log[..n], campaign, i);
    if IsTurn(log[n], campaign, i) {
      TurnIsKept(row, log[n], Refs(log[..n], campaign), guide);
      assert TurnPlaces(log, campaign, i) == at + [n];
    } else if Concerns(log[n], campaign, i) {
      OtherKeepsTurns(row, log[n], Refs(log[..n], campaign), guide);
      assert TurnPlaces(log, campaign, i) == at;
    }
  }

  lemma TurnIsKept(row: Row, e: Logged, refs: map<nat, string>, guide: Option<seq<nat>>)
    requires e.body.InterviewEvent? && e.body.event.TurnRecorded?
    ensures var t := e.body.event; Update(row, e, refs, guide).turns == row.turns + [TurnView(t.order, t.role, t.text, e.ts)]
  {
  }

  lemma OtherKeepsTurns(row: Row, e: Logged, refs: map<nat, string>, guide: Option<seq<nat>>)
    requires !(e.body.InterviewEvent? && e.body.event.TurnRecorded?)
    ensures Update(row, e, refs, guide).turns == row.turns
  {
  }

  lemma JoinStep(row: Row, log: seq<Logged>, campaign: nat, i: nat, guide: Option<seq<nat>>)
    requires log != [] && TellsJoin(row, log[..|log| - 1], campaign, i)
    ensures TellsJoin(Moved(row, log, campaign, i, guide), log, campaign, i)
  {
    hide Refs, Update, TellsJoin, Last, First;
    var n := |log| - 1;
    if IsJoin(log[n], campaign, i) {
      NewJoin(row, log, campaign, i, guide);
    } else {
      if Concerns(log[n], campaign, i) {
        OtherKeepsJoin(row, log[n], Refs(log[..n], campaign), guide);
      }
      OldJoin(row, Moved(row, log, campaign, i, guide), log, campaign, i);
    }
  }

  lemma NewJoin(row: Row, log: seq<Logged>, campaign: nat, i: nat, guide: Option<seq<nat>>)
    requires log != [] && IsJoin(log[|log| - 1], campaign, i)
    ensures TellsJoin(Moved(row, log, campaign, i, guide), log, campaign, i)
  {
    hide Refs, Update;
    var n := |log| - 1;
    RefsAre(log[..n], campaign, log[n].body.respondent);
    JoinIsKept(row, log[n], Refs(log[..n], campaign), guide);
  }

  lemma OldJoin(row: Row, r: Row, log: seq<Logged>, campaign: nat, i: nat)
    requires log != [] && TellsJoin(row, log[..|log| - 1], campaign, i) && !IsJoin(log[|log| - 1], campaign, i)
    requires r.respondent == row.respondent && r.channel == row.channel && r.source == row.source
    requires r.externalRef == row.externalRef
    requires var e := log[|log| - 1];
             r.startedAt == if IsStart(e, campaign, i) && row.startedAt.None? then Some(e.ts) else row.startedAt
    ensures TellsJoin(r, log, campaign, i)
  {
    var before := log[..|log| - 1];
    var k := Last(before, e => IsJoin(e, campaign, i));
    if k.Some? {
      assert before[..k.value] == log[..k.value];
    }
  }

  lemma JoinIsKept(row: Row, e: Logged, refs: map<nat, string>, guide: Option<seq<nat>>)
    requires e.body.RespondentJoined?
    ensures var r, join := Update(row, e, refs, guide), e.body;
            && r.respondent == join.respondent && r.channel == join.channel && r.startedAt == Some(e.ts)
            && r.source == (if join.source == "" then "direct" else join.source)
            && r.externalRef == if join.respondent in refs then Some(refs[join.respondent]) else None
  {
  }

  lemma OtherKeepsJoin(row: Row, e: Logged, refs: map<nat, string>, guide: Option<seq<nat>>)
    requires !e.body.RespondentJoined?
    ensures var r := Update(row, e, refs, guide);
            && r.respondent == row.respondent && r.channel == row.channel && r.source == row.source
            && r.externalRef == row.externalRef
            && r.startedAt == if e.body.InterviewStarted? && row.startedAt.None? then Some(e.ts) else row.startedAt
  {
    hide Refers;
  }

  lemma EndStep(row: Row, log: seq<Logged>, campaign: nat, i: nat, guide: Option<seq<nat>>)
    requires log != [] && TellsEnd(row, log[..|log| - 1], campaign, i)
    ensures TellsEnd(Moved(row, log, campaign, i, guide), log, campaign, i)
  {
    hide Refs, Refers;
  }

  lemma {:induction false} RefsAre(log: seq<Logged>, campaign: nat, respondent: nat)
    ensures var refs, k := Refs(log, campaign), Last(log, e => Names(e, campaign, respondent));
            && (respondent in refs <==> k.Some?)
            && (k.Some? ==> refs[respondent] == log[k.value].body.externalId)
    decreases |log|
  {
    if log != [] {
      RefsAre(log[..|log| - 1], campaign, respondent);
    }
  }

  // ---------------------------------------------------------------- agreement with the interviewer

  /** The turns and completions an interview's own agent recorded, as the log has them. */
  function Own(log: seq<Logged>, campaign: nat, i: nat): seq<Event> {
    if log == [] then []
    else
      var e := log[|log| - 1];
      Own(log[..|log| - 1], campaign, i) + if e.campaign == campaign && e.body.InterviewEvent? && e.body.interview
          == i then [e.body.event] else []
  }

  /** Completed or abandoned, whichever came last. */
  function StatusOf(log: seq<Logged>, campaign: nat, i: nat): Status {
    if log == [] then InProgress
    else
      var e := log[|log| - 1];
      if e.campaign == campaign && e.body == InterviewAbandoned(i) then Abandoned
      else if e.campaign == campaign && e.body.InterviewEvent? && e.body.interview
          == i && e.body.event.InterviewCompleted? then Completed
      else StatusOf(log[..|log| - 1], campaign, i)
  }

  function ReferredIn(es: seq<Event>, guide: Option<seq<nat>>): set<nat> {
    if es == [] then {} else ReferredIn(es[..|es| - 1], guide) + Refers(guide, es[|es| - 1])
  }

  predicate HasTurn(es: seq<Event>) { exists k :: 0 <= k < |es| && es[k].TurnRecorded? }

  /** The coverage of the last completion. */
  function Reported(es: seq<Event>): Option<real> {
    if es == [] then None
    else if es[|es| - 1].InterviewCompleted? then Some(es[|es| - 1].coverage)
    else Reported(es[..|es| - 1])
  }

  /** A row is a summary of its interview's own events and of how it ended. */
  ghost predicate Summarises(row: Option<Row>, es: seq<Event>, status: Status, guide: Option<seq<nat>>) {
    if row.None? then es == [] && status.InProgress?
    else
      && row.value.covered == ReferredIn(es, guide)
      && (row.value.turns != [] <==> HasTurn(es))
      && row.value.status == status
      && row.value.goalCoverage == if Reported(es).Some? then Reported(es).value else 0.0
  }

  lemma SummaryStep(row: Row, es: seq<Event>, status: Status, e: Logged, refs: map<nat, string>,
                    guide: Option<seq<nat>>)
    requires Summarises(Some(row), es, status, guide)
    ensures Summarises(Some(Update(row, e, refs, guide)), if e.body.InterviewEvent? then es + [e.body.event] else es,
                       if e.body.InterviewAbandoned? then Abandoned
                       else if e.body.InterviewEvent? && e.body.event.InterviewCompleted? then Completed else status, guide)
  {
    hide ReferredIn, HasTurn, Reported;
    if e.body.InterviewEvent? {
      OneMoreEvent(es, e.body.event, guide);
    }
  }

  lemma OneMoreEvent(es: seq<Event>, e: Event, guide: Option<seq<nat>>)
    ensures ReferredIn(es + [e], guide) == ReferredIn(es, guide) + Refers(guide, e)
    ensures HasTurn(es + [e]) <==> HasTurn(es) || e.TurnRecorded?
    ensures Reported(es + [e]) == if e.InterviewCompleted? then Some(e.coverage) else Reported(es)
  {
    var more := es + [e];
    assert more[..|more| - 1] == es && more[|es|] == e;
    assert forall k | 0 <= k < |es| :: more[k] == es[k];
    if HasTurn(es) {
      var k :| 0 <= k < |es| && es[k].TurnRecorded?;
      assert more[k].TurnRecorded?;
    }
    if e.TurnRecorded? {
      assert more[|es|].TurnRecorded?;
    }
  }

  lemma {:induction false} RowSummarises(log: seq<Logged>, campaign: nat, i: nat, guide: Option<seq<nat>>)
    ensures Summarises(RowOf(log, campaign, i, guide), Own(log, campaign, i), StatusOf(log, campaign, i), guide)
    decreases |log|
  {
    hide Update, Summarises, NewRow;
    if log == [] {
      NothingSummarises(i, guide);
    } else {
      var before, e := log[..|log| - 1], log[|log| - 1];
      RowSummarises(before, campaign, i, guide);
      var row, es, status := RowOf(before, campaign, i, guide), Own(before, campaign, i), StatusOf(before, campaign, i);
      assert es + [] == es;
      if Concerns(e, campaign, i) {
        if row.None? {
          NewSummarises(row, es, status, i, guide);
        }
        SummaryStep(if row.Some? then row.value else NewRow(i), es, status, e, Refs(before, campaign), guide);
      }
    }
  }

  lemma NothingSummarises(i: nat, guide: Option<seq<nat>>)
    ensures Summarises(None, [], InProgress, guide)
  {
  }

  lemma NewSummarises(row: Option<Row>, es: seq<Event>, status: Status, i: nat, guide: Option<seq<nat>>)
    requires row.None? && Summarises(row, es, status, guide)
    ensures Summarises(Some(NewRow(i)), es, status, guide)
  {
  }

  /** An interview that reported its coverage was completed, and may have been abandoned since. */
  lemma {:induction false} ReportedHasEnded(log: seq<Logged>, campaign: nat, i: nat)
    requires Reported(Own(log, campaign, i)).Some?
    ensures !StatusOf(log, campaign, i).InProgress?
    decreases |log|
  {
    if log != [] {
      var before, e := log[..|log| - 1], log[|log| - 1];
      var es := Own(before, campaign, i);
      if e.campaign == campaign && e.body.InterviewEvent? && e.body.interview == i {
        OneMoreEvent(es, e.body.event, None);
      } else {
        assert es + [] == es;
      }
      if Reported(es).Some? {
        ReportedHasEnded(before, campaign, i);
      }
    }
  }

  function GuideIds(items: seq<Item>): seq<nat> { seq(|items|, j requires 0 <= j < |items| => items[j].id) }

  lemma GuideSet(items: seq<Item>)
    requires Distinct(items)
    ensures SetOf(GuideIds(items)) == Ids(items, |items|) && |SetOf(GuideIds(items))| == |items|
  {
    IdsAre(items, |items|);
    var ids := GuideIds(items);
    forall x | x in Ids(items, |items|) ensures x in ids {
      var j :| 0 <= j < |items| && items[j].id == x;
      assert ids[j] == x;
    }
  }

  lemma {:induction false} ReferredInAppend(a: seq<Event>, b: seq<Event>, guide: Option<seq<nat>>)
    ensures ReferredIn(a + b, guide) == ReferredIn(a, guide) + ReferredIn(b, guide)
    decreases |b|
  {
    if b == [] {
      assert a + b == a;
    } else {
      var n := |b| - 1;
      assert (a + b)[..|a + b| - 1] == a + b[..n];
      ReferredInAppend(a, b[..n], guide);
    }
  }

  lemma {:induction false} ReportedAppend(a: seq<Event>, b: seq<Event>)
    requires Reported(b).Some?
    ensures Reported(a + b) == Reported(b)
    decreases |b|
  {
    var n := |b| - 1;
    assert (a + b)[|a + b| - 1] == b[n];
    if !b[n].InterviewCompleted? {
      assert (a + b)[..|a + b| - 1] == a + b[..n];
      ReportedAppend(a, b[..n]);
    }
  }

  lemma TurnsRefer(order: nat, text: string, said: Action, prose: string, w: Wording, guide: Option<seq<nat>>)
    ensures ReferredIn(TurnEvents(order, text, said, prose, w), guide)
                == if said.item.Some? && Counted(guide, said.item.value) then {said.item.value} else {}
  {
    var es := TurnEvents(order, text, said, prose, w);
    assert es[..1] == [es[0]] && [es[0]][..0] == [];
    assert ReferredIn([es[0]], guide) == ReferredIn([], guide) + Refers(guide, es[0]);
    assert ReferredIn(es, guide) == ReferredIn([es[0]], guide) + Refers(guide, es[1]);
  }

  lemma CompletionRefers(duration: int, coverage: real, guide: Option<seq<nat>>)
    ensures ReferredIn([InterviewCompleted(duration, coverage)], guide)
                == {} && Reported([InterviewCompleted(duration, coverage)]) == Some(coverage)
  {
    var es := [InterviewCompleted(duration, coverage)];
    assert es[..0] == [];
  }

  /** One reply's events in front of what the reducer reads off the rest. */
  lemma ReadStep(items: seq<Item>, turns: seq<Event>, said: Action, rest: seq<Event>, referred: set<nat>, order: nat,
                 text: string, prose: string, w: Wording)
    requires Distinct(items) && turns == TurnEvents(order, text, said, prose, w)
    requires ReferredIn(rest, Some(GuideIds(items))) == referred * Ids(items, |items|) && Reported(rest).Some?
    ensures ReferredIn(turns + rest, Some(GuideIds(items)))
            == ((if said.item.Some? then {said.item.value} else {}) + referred) * Ids(items, |items|)
    ensures Reported(turns + rest) == Reported(rest)
    ensures turns + rest != [] && (turns + rest)[0].TurnRecorded?
  {
    hide Ids, Distinct, ReferredIn, Reported;
    var g := Some(GuideIds(items));
    GuideSet(items);
    assert forall x :: Counted(g, x) <==> x in Ids(items, |items|) by {
      assert forall x :: x in SetOf(GuideIds(items)) <==> x in GuideIds(items);
    }
    TurnsRefer(order, text, said, prose, w, g);
    ReferredInAppend(turns, rest, g);
    ReportedAppend(turns, rest);
  }

  /** What the reducer reads off a recorded run: the referred items, and the coverage at the wrap-up. */
  lemma {:induction false} RunIsRead(items: seq<Item>, spot: Spot, replies: seq<Reply>, order: nat, w: Wording)
    requires IsGuide(items) && OnGuide(items, spot) && HasWrapped(Journey(items, spot, replies))
    ensures var es, os := RunEvents(items, spot, replies, order, w), Journey(items, spot, replies);
            && ReferredIn(es, Some(GuideIds(items))) == Referred(items, spot, replies, w) * Ids(items, |items|)
            && (forall j | 0 <= j < |os| - 1 :: !os[j].Wrapped?)
            && Reported(es) == Some(Coverage(SpotAt(spot, os, |os| - 1), os[|os| - 1].finished))
            && es != [] && es[0].TurnRecorded?
    decreases |replies|
  {
    hide Coverage, Next, Said, Distinct, OnGuide, RunEvents, TurnEvents, ReferredIn, Reported, Ids, GuideIds;
    var r := replies[0];
    var o, said := Next(items, spot, r.stop, r.action), Said(items, spot, r.stop, r.action, w);
    var turns := TurnEvents(order, r.text, said, r.prose, w);
    var os := Journey(items, spot, replies);
    RunContinues(items, spot, replies, order, w);
    if o.Wrapped? {
      var done := InterviewCompleted(r.seconds, Coverage(spot, o.finished));
      CompletionRefers(done.duration, done.coverage, Some(GuideIds(items)));
      ReadStep(items, turns, said, [done], {}, order, r.text, r.prose, w);
    } else {
      NextOnGuide(items, spot, r.stop, r.action);
      RunIsRead(items, o.spot, replies[1..], order + 2, w);
      var rest := RunEvents(items, o.spot, replies[1..], order + 2, w);
      var more := Journey(items, o.spot, replies[1..]);
      assert os == [o] + more;
      assert SpotAt(spot, os, |os| - 1) == SpotAt(o.spot, more, |more| - 1);
      ReadStep(items, turns, said, rest, Referred(items, o.spot, replies[1..], w), order, r.text, r.prose, w);
    }
  }

  lemma NextOnGuide(items: seq<Item>, spot: Spot, stop: bool, a: Action)
    requires OnGuide(items, spot)
    ensures var o := Next(items, spot, stop, a); !o.Wrapped? ==> OnGuide(items, o.spot)
  {
  }

  /** The first `n` ids of a guide among all of them. */
  lemma {:induction false} IdsGrow(items: seq<Item>, n: nat, m: nat)
    requires n <= m <= |items|
    ensures Ids(items, n) <= Ids(items, m)
    decreases m
  {
    if n < m {
      IdsGrow(items, n, m - 1);
    }
  }

  /** The two computations of coverage. From the log of a whole interview - with anything else interleaved - the
      reducer rebuilds the part of the guide up to the item the interview ended on, and shows the larger of that
      and the reported value: full for a finished interview, and for a stopped one exactly when the respondent
      stopped it on the last item. For one that was abandoned after all, it shows the reported value. */
  lemma EvidenceAgrees(log: seq<Logged>, campaign: nat, i: nat, items: seq<Item>, replies: seq<Reply>, w: Wording)
    requires IsGuide(items)
    requires HasWrapped(Journey(items, Spot(0, 0), replies))
    requires Own(log, campaign, i) == RunEvents(items, Spot(0, 0), replies, 1, w)
    ensures var guide, os := Some(GuideIds(items)), Journey(items, Spot(0, 0), replies);
            var row := RowOf(log, campaign, i, guide);
            && (forall j | 0 <= j < |os| - 1 :: !os[j].Wrapped?)
            && var last, finished := SpotAt(Spot(0, 0), os, |os| - 1), os[|os| - 1].finished;
               && row.Some? && row.value.status == StatusOf(log, campaign, i) && !row.value.status.InProgress?
               && row.value.goalCoverage == Coverage(last, finished)
               && last.at < |items|
               && (finished ==> Shown(row.value, guide) == 1.0)
               && (!finished ==>
                     Shown(row.value, guide)
                         == (if row.value.status.Completed? then Larger(Coverage(last, false), Ratio(last.at + 1, |items|))
                                                 else Coverage(last, false)))
               && (Shown(row.value, guide) == 1.0 <==> finished || (row.value.status.Completed? && last.at == |items| - 1))
  {
    hide Coverage, Journey, HasWrapped, RunEvents, Referred, Distinct, Ids, SetOf, Ratio, Own, RowOf, StatusOf,
      Reported, ReferredIn;
    var guide, os := Some(GuideIds(items)), Journey(items, Spot(0, 0), replies);
    var es := RunEvents(items, Spot(0, 0), replies, 1, w);
    GuideStarts(items);
    RowSummarises(log, campaign, i, guide);
    RunIsRead(items, Spot(0, 0), replies, 1, w);
    assert HasTurn(es);
    assert os != [] && os[|os| - 1].Wrapped? by { WrappedLast(os); }
    ReferredItems(items, Spot(0, 0), replies, w);
    var last, finished := SpotAt(Spot(0, 0), os, |os| - 1), os[|os| - 1].finished;
    var row := RowOf(log, campaign, i, guide).value;
    var covered := row.covered + {items[0].id};
    var n := if finished then |items| else last.at + 1;
    CoveredIds(items, Referred(items, Spot(0, 0), replies, w), covered, n);
    GuideSet(items);
    ReportedHasEnded(log, campaign, i);
    assert row.status.Completed? ==> Shown(row, guide) == Larger(row.goalCoverage, Ratio(n, |items|));
    FullIffFinished(last, finished);
    RatioIsFull(n, |items|);
  }

  function Larger(x: real, y: real): real { if x < y then y else x }

  lemma WrappedLast(os: seq<Outcome>)
    requires HasWrapped(os)
    ensures os != [] && os[|os| - 1].Wrapped?
  {
  }

  lemma GuideStarts(items: seq<Item>)
    requires IsGuide(items)
    ensures GuideIds(items) != [] && GuideIds(items)[0] == items[0].id && OnGuide(items, Spot(0, 0))
  {
  }

  lemma RatioIsFull(n: nat, m: nat)
    requires 0 < n <= m
    ensures 0.0 < Ratio(n, m) <= 1.0 && (Ratio(n, m) == 1.0 <==> n == m)
  {
    if n == m {
      Quotient(1.0, m as real, m as real);
    } else {
      FractionBelowOne(n as real, m as real);
    }
  }

  lemma CoveredIds(items: seq<Item>, referred: set<nat>, covered: set<nat>, n: nat)
    requires Distinct(items) && 0 < n <= |items| && covered == referred * Ids(items, |items|) + {items[0].id}
    requires forall j | 0 <= j < |items| :: items[j].id in referred + {items[0].id} <==> j < n
    ensures |covered * SetOf(GuideIds(items))| == n
  {
    hide Distinct;
    GuideSet(items);
    IdsAre(items, |items|);
    IdsAre(items, n);
    IdsGrow(items, n, |items|);
    var shown := covered * SetOf(GuideIds(items));
    forall x ensures x in shown <==> x in Ids(items, n) {
      if x in Ids(items, |items|) {
        var j :| 0 <= j < |items| && items[j].id == x;
        assert x in referred + {items[0].id} <==> j < n;
        if x in Ids(items, n) {
          var k :| 0 <= k < n && items[k].id == x;
        }
      }
    }
    assert shown == Ids(items, n);
  }
}
