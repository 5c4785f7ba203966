/** The campaign read models: three tables that several appliers keep up to date from one event log.

    Campaign rows and progress counters carry the number of the last event applied and refuse older ones; the
    insight table has no such guard. Each SQL statement is one atomic step on its table. Event numbers rise along
    the log but need not be contiguous within one campaign's stream. */
module Projection {
  import opened Wrappers
  import opened EventLog

  datatype Stage = Draft | Ready | Published | Closed

  datatype Study = Study(org: nat, author: nat, title: string, stage: Stage, spec: Spec, version: nat, updated: int)

  datatype Counters = Counters(invited: nat, started: nat, completed: nat, abandoned: nat, duration: int, coverage: real)

  datatype Insight = Insight(id: nat, campaign: nat, content: string, created: int)

  /** A guarded row: its value and the number of the last event applied to it. */
  datatype Marked<V> = Marked(value: V, last: nat)

  datatype Tables = Tables(campaigns: map<nat, Marked<Study>>, progress: map<nat, Marked<Counters>>, insights: map<nat, Insight>)

  /** What the caller loaded from memory for a `StudyDrafted` event. */
  datatype Context = Context(org: nat, spec: Spec)

  datatype Application = Application(event: Stored, context: Option<Context>)

  const ZERO := Counters(0, 0, 0, 0, 0, 0.0)

  const TITLE := "title"

  // ---------------------------------------------------------------- what each kind of event does

  predicate IsStudyChange(e: Stored) {
    e.body.SpecUpdated? || e.body.CampaignReady? || e.body.CampaignPublished? || e.body.CampaignClosed?
  }

  predicate IsCount(e: Stored) {
    e.body.InviteDispatched? || e.body.InterviewStarted? || e.body.InterviewCompleted? || e.body.InterviewAbandoned?
  }

  function SpecPatch(patch: Spec): Spec { patch - {TITLE} }

  /** Only a title that is text is taken over. */
  function NewTitle(patch: Spec, title: string): string {
    if TITLE in patch && patch[TITLE].Str? then patch[TITLE].text else title
  }

  function ChangeStudy(v: Study, e: Stored): Study {
    match e.body
    case SpecUpdated(patch) =>
      v.(title := NewTitle(patch, v.title), spec := v.spec + SpecPatch(patch), version := v.version + 1, updated := e.at)
    case CampaignReady => v.(stage := Ready, updated := e.at)
    case CampaignPublished => v.(stage := Published, updated := e.at)
    case CampaignClosed => v.(stage := Closed, updated := e.at)
    case _ => v
  }

  /** What one event adds to the counters. */
  function Increment(e: Stored): Counters {
    match e.body
    case InviteDispatched => ZERO.(invited := 1)
    case InterviewStarted => ZERO.(started := 1)
    case InterviewCompleted(duration, coverage) => ZERO.(completed := 1, duration := duration, coverage := coverage)
    case InterviewAbandoned => ZERO.(abandoned := 1)
    case _ => ZERO
  }

  function Plus(a: Counters, b: Counters): Counters {
    Counters(a.invited + b.invited, a.started + b.started, a.completed + b.completed, a.abandoned + b.abandoned,
             a.duration + b.duration, a.coverage + b.coverage)
  }

  function InsightOf(e: Stored): Insight
    requires e.body.InsightGenerated?
  {
    Insight(e.body.id, e.campaign, e.body.content, e.at)
  }

  function NewStudy(e: Stored, x: Context): Study
    requires e.body.StudyDrafted?
  {
    Study(x.org, e.body.author, e.body.title, Draft, x.spec, 1, e.at)
  }

  /** The effects of one statement on each table. */
  function DraftStudy(t: Tables, e: Stored, x: Context): Tables
    requires e.body.StudyDrafted?
  {
    if e.campaign in t.campaigns then t
    else t.(campaigns := t.campaigns[e.campaign := Marked(NewStudy(e, x), e.no)])
  }

  function UpdateStudy(t: Tables, e: Stored): Tables {
    var c := e.campaign;
    if c in t.campaigns && t.campaigns[c].last < e.no then
      t.(campaigns := t.campaigns[c := Marked(ChangeStudy(t.campaigns[c].value, e), e.no)])
    else t
  }

  function BumpCounters(t: Tables, c: nat, no: nat, delta: Counters): Tables {
    if c !in t.progress then t.(progress := t.progress[c := Marked(delta, no)])
    else if t.progress[c].last < no then t.(progress := t.progress[c := Marked(Plus(t.progress[c].value, delta), no)])
    else t
  }

  function DropInsights(t: Tables, c: nat): Tables {
    t.(insights := map i | i in t.insights && t.insights[i].campaign != c :: t.insights[i])
  }

  function AddInsight(t: Tables, e: Stored): Tables
    requires e.body.InsightGenerated?
  {
    if e.body.id in t.insights then t else t.(insights := t.insights[e.body.id := InsightOf(e)])
  }

  /** The effect of one application on the tables. */
  function Project(t: Tables, a: Application): Tables {
    var e := a.event;
    if e.body.StudyDrafted? then if a.context.None? then t else DraftStudy(t, e, a.context.value)
    else if IsStudyChange(e) then UpdateStudy(t, e)
    else if IsCount(e) then BumpCounters(t, e.campaign, e.no, Increment(e))
    else if e.body.InsightSetReplaced? then DropInsights(t, e.campaign)
    else if e.body.InsightGenerated? then AddInsight(t, e)
    else t
  }

  function ProjectAll(t: Tables, apps: seq<Application>): Tables
    decreases |apps|
  {
    if apps == [] then t else ProjectAll(Project(t, apps[0]), apps[1..])
  }

  class CampaignProjector {
    var campaigns: map<nat, Marked<Study>>
    var progress: map<nat, Marked<Counters>>
    var insights: map<nat, Insight>

    ghost function Contents(): Tables
      reads this
    {
      Tables(campaigns, progress, insights)
    }

    constructor ()
      ensures Contents() == Tables(map[], map[], map[])
    {
      campaigns, progress, insights := map[], map[], map[];
    }

    /** Applies one event. A `StudyDrafted` without its context fails its assertion and changes nothing. */
    method Apply(a: Application) returns (ok: bool)
      modifies this
      ensures Contents() == Project(old(Contents()), a)
      ensures ok <==> !(a.event.body.StudyDrafted? && a.context.None?)
    {
      hide DraftStudy, UpdateStudy, BumpCounters, DropInsights, AddInsight;
      var e := a.event;
      var c, no := e.campaign, e.no;
      ok := true;
      if e.body.StudyDrafted? {
        if a.context.None? {
          return false;
        }
        InsertStudy(e, a.context.value);
      } else if e.body.SpecUpdated? {
        var title := if TITLE in e.body.patch && e.body.patch[TITLE].Str? then Some(e.body.patch[TITLE].text) else None;
        UpdateSpec(e, title, e.body.patch - {TITLE});
      } else if e.body.CampaignReady? || e.body.CampaignPublished? || e.body.CampaignClosed? {
        SetStage(e, if e.body.CampaignReady? then Ready else if e.body.CampaignPublished? then Published else Closed);
      } else if e.body.InviteDispatched? {
        Bump(c, no, ZERO.(invited := 1));
      } else if e.body.InterviewStarted? {
        Bump(c, no, ZERO.(started := 1));
      } else if e.body.InterviewCompleted? {
        Bump(c, no, ZERO.(completed := 1, duration := e.body.duration, coverage := e.body.coverage));
      } else if e.body.InterviewAbandoned? {
        Bump(c, no, ZERO.(abandoned := 1));
      } else if e.body.InsightSetReplaced? {
        DeleteInsights(c);
      } else if e.body.InsightGenerated? {
        InsertInsight(e);
      }
    }

    /** `ON CONFLICT DO NOTHING`: a second draft of a campaign is ignored. */
    method InsertStudy(e: Stored, x: Context)
      requires e.body.StudyDrafted?
      modifies this`campaigns
      ensures Contents() == DraftStudy(old(Contents()), e, x)
    {
      if e.campaign !in campaigns {
        campaigns := campaigns[e.campaign := Marked(NewStudy(e, x), e.no)];
      }
    }

    /** Merges the patch into the row, unless there is none or it has seen this number. */
    method UpdateSpec(e: Stored, title: Option<string>, specPatch: Spec)
      requires e.body.SpecUpdated? && specPatch == SpecPatch(e.body.patch)
      requires title == if TITLE in e.body.patch && e.body.patch[TITLE].Str? then Some(e.body.patch[TITLE].text) else None
      modifies this`campaigns
      ensures Contents() == UpdateStudy(old(Contents()), e)
    {
      var c := e.campaign;
      if c in campaigns && campaigns[c].last < e.no {
        var row := campaigns[c].value;
        if title.Some? {
          row := row.(title := title.value);
        }
        row := row.(spec := row.spec + specPatch, updated := e.at, version := row.version + 1);
        campaigns := campaigns[c := Marked(row, e.no)];
      }
    }

    method SetStage(e: Stored, stage: Stage)
      requires e.body.CampaignReady? || e.body.CampaignPublished? || e.body.CampaignClosed?
      requires stage == if e.body.CampaignReady? then Ready else if e.body.CampaignPublished? then Published else Closed
      modifies this`campaigns
      ensures Contents() == UpdateStudy(old(Contents()), e)
    {
      var c := e.campaign;
      if c in campaigns && campaigns[c].last < e.no {
        campaigns := campaigns[c := Marked(campaigns[c].value.(stage := stage, updated := e.at), e.no)];
      }
    }

    /** Adds to the counters unless the row has already seen this number or a later one. */
    method Bump(c: nat, no: nat, delta: Counters)
      modifies this`progress
      ensures Contents() == BumpCounters(old(Contents()), c, no, delta)
    {
      if c !in progress {
        progress := progress[c := Marked(delta, no)];
      } else if progress[c].last < no {
        progress := progress[c := Marked(Plus(progress[c].value, delta), no)];
      }
    }

    method DeleteInsights(c: nat)
      modifies this`insights
      ensures Contents() == DropInsights(old(Contents()), c)
    {
      insights := map i | i in insights && insights[i].campaign != c :: insights[i];
    }

    method InsertInsight(e: Stored)
      requires e.body.InsightGenerated?
      modifies this`insights
      ensures Contents() == AddInsight(old(Contents()), e)
    {
      if e.body.id !in insights {
        insights := insights[e.body.id := InsightOf(e)];
      }
    }

    /** The synchronisation after a tool call: one campaign's stream, in order; the draft only with its context. */
    method ApplyPending(stream: seq<Stored>, context: Option<Context>)
      modifies this
      ensures Contents() == ProjectAll(old(Contents()), Applications(stream, context))
    {
      for i := 0 to |stream|
        invariant ProjectAll(Contents(), Applications(stream[i..], context))
                      == ProjectAll(old(Contents()), Applications(stream, context))
      {
        ApplicationsStep(stream, context, i);
        if stream[i].body.StudyDrafted? {
          if context.Some? {
            var _ := Apply(Application(stream[i], context));
          }
        } else {
          var _ := Apply(Application(stream[i], context));
        }
      }
      assert stream[|stream|..] == [];
    }
  }

  function Applications(stream: seq<Stored>, context: Option<Context>): seq<Application> {
    seq(|stream|, i requires 0 <= i < |stream| => Application(stream[i], context))
  }

  lemma ApplicationsStep(stream: seq<Stored>, context: Option<Context>, i: nat)
    requires i < |stream|
    ensures Applications(stream[i..], context) == [Application(stream[i], context)] + Applications(stream[i + 1..], context)
    ensures forall t :: ProjectAll(t, Applications(stream[i..], context))
                        == ProjectAll(Project(t, Application(stream[i], context)), Applications(stream[i + 1..], context))
  {
    assert Applications(stream[i..], context)[1..] == Applications(stream[i + 1..], context);
  }

  // ---------------------------------------------------------------- guarded rows

  function Guard<V>(m: Marked<V>, e: Stored, rel: Stored -> bool, f: (V, Stored) -> V): Marked<V> {
    if rel(e) && m.last < e.no then Marked(f(m.value, e), e.no) else m
  }

  /** Applying the stream's events at the given positions, in that order, each through the guard. */
  function GuardAll<V>(m: Marked<V>, s: seq<Stored>, at: seq<nat>, rel: Stored -> bool, f: (V, Stored) -> V): Marked<V>
    requires forall i | 0 <= i < |at| :: at[i] < |s|
    decreases |at|
  {
    if at == [] then m else GuardAll(Guard(m, s[at[0]], rel, f), s, at[1..], rel, f)
  }

  /** The plain fold over the events numbered above `lo` and up to `hi`. */
  function Fold<V>(v: V, s: seq<Stored>, lo: nat, hi: nat, rel: Stored -> bool, f: (V, Stored) -> V): V
    decreases |s|
  {
    if s == [] then v
    else
      var e, u := s[|s| - 1], Fold(v, s[..|s| - 1], lo, hi, rel, f);
      if rel(e) && lo < e.no <= hi then f(u, e) else u
  }

  function Number(s: seq<Stored>, lo: nat, hi: nat, rel: Stored -> bool): nat
    decreases |s|
  {
    if s == [] then 0
    else Number(s[..|s| - 1], lo, hi, rel) + if rel(s[|s| - 1]) && lo < s[|s| - 1].no <= hi then 1 else 0
  }

  /** Applying number `no` to a row marked `last` jumps over no event of this kind. */
  ghost predicate NoJump(s: seq<Stored>, last: nat, no: nat, kind: Stored -> bool) {
    forall j | 0 <= j < |s| && kind(s[j]) && s[j].no < no :: s[j].no <= last
  }

  /** No application along the schedule jumps over an event of this kind. */
  ghost predicate GapFree<V>(m: Marked<V>, s: seq<Stored>, at: seq<nat>, rel: Stored -> bool, f: (V, Stored) -> V,
                             kind: Stored -> bool)
    requires forall i | 0 <= i < |at| :: at[i] < |s|
    decreases |at|
  {
    at == [] ||
    (&& (rel(s[at[0]]) && m.last < s[at[0]].no ==> NoJump(s, m.last, s[at[0]].no, kind))
     && GapFree(Guard(m, s[at[0]], rel, f), s, at[1..], rel, f, kind))
  }

  lemma {:induction false} FoldEmptyRange<V>(v: V, s: seq<Stored>, lo: nat, mid: nat, hi: nat, rel: Stored -> bool,
                                             f: (V, Stored) -> V)
    requires lo <= mid <= hi
    requires forall j | 0 <= j < |s| && rel(s[j]) && mid < s[j].no :: hi < s[j].no
    ensures Fold(v, s, lo, hi, rel, f) == Fold(v, s, lo, mid, rel, f)
    decreases |s|
  {
    if s != [] {
      FoldEmptyRange(v, s[..|s| - 1], lo, mid, hi, rel, f);
    }
  }

  lemma {:induction false} FoldExtends<V>(v: V, s: seq<Stored>, lo: nat, mid: nat, k: nat, rel: Stored -> bool,
                                          f: (V, Stored) -> V)
    requires Rising(s) && k < |s| && rel(s[k]) && lo <= mid < s[k].no && NoJump(s, mid, s[k].no, rel)
    ensures Fold(v, s, lo, s[k].no, rel, f) == f(Fold(v, s, lo, mid, rel, f), s[k])
    decreases |s|
  {
    var n := |s| - 1;
    if k == n {
      FoldEmptyRange(v, s[..n], lo, mid, s[k].no, rel, f);
    } else {
      FoldExtends(v, s[..n], lo, mid, k, rel, f);
    }
  }

  /** A schedule without gaps, with any re-applications in between, leaves the plain fold over the applied prefix. */
  lemma {:induction false} GapFreeIsFold<V>(v: V, m: Marked<V>, s: seq<Stored>, at: seq<nat>, lo: nat,
                                            rel: Stored -> bool, f: (V, Stored) -> V)
    requires Rising(s) && forall i | 0 <= i < |at| :: at[i] < |s|
    requires lo <= m.last && m.value == Fold(v, s, lo, m.last, rel, f)
    requires GapFree(m, s, at, rel, f, rel)
    ensures var r := GuardAll(m, s, at, rel, f); m.last <= r.last && r.value == Fold(v, s, lo, r.last, rel, f)
    decreases |at|
  {
    if at != [] {
      if rel(s[at[0]]) && m.last < s[at[0]].no {
        FoldExtends(v, s, lo, m.last, at[0], rel, f);
      }
      GapFreeIsFold(v, Guard(m, s[at[0]], rel, f), s, at[1..], lo, rel, f);
    }
  }

  // ---------------------------------------------------------------- a gap is never repaired

  lemma {:induction false} NumberSplits(s: seq<Stored>, lo: nat, mid: nat, hi: nat, kind: Stored -> bool)
    requires lo <= mid <= hi
    ensures Number(s, lo, hi, kind) == Number(s, lo, mid, kind) + Number(s, mid, hi, kind)
    decreases |s|
  {
    if s != [] {
      NumberSplits(s[..|s| - 1], lo, mid, hi, kind);
    }
  }

  /** Between the mark and the next number lie that event itself and whatever it jumps over. */
  lemma {:induction false} NumberBetween(s: seq<Stored>, last: nat, k: nat, kind: Stored -> bool)
    requires Rising(s) && k < |s| && last < s[k].no
    ensures Number(s, last, s[k].no, kind) >= if kind(s[k]) then 1 else 0
    ensures NoJump(s, last, s[k].no, kind) <==> Number(s, last, s[k].no, kind) == if kind(s[k]) then 1 else 0
    decreases |s|
  {
    var n := |s| - 1;
    if k == n {
      NoneBetween(s[..n], last, s[k].no, kind);
      assert forall j | 0 <= j < n :: s[..n][j] == s[j];
    } else {
      NumberBetween(s[..n], last, k, kind);
      assert forall j | 0 <= j < n :: s[..n][j] == s[j];
    }
  }

  lemma {:induction false} NoneBetween(s: seq<Stored>, lo: nat, hi: nat, kind: Stored -> bool)
    ensures Number(s, lo, hi, kind) == 0 <==> forall j | 0 <= j < |s| && kind(s[j]) && s[j].no <= hi :: s[j].no <= lo
    decreases |s|
  {
    if s != [] {
      var n := |s| - 1;
      NoneBetween(s[..n], lo, hi, kind);
      assert forall j | 0 <= j < n :: s[..n][j] == s[j];
    }
  }

  /** `kind` events that are applied through the guard raise `weight` by one; others leave it. */
  ghost predicate Counts<V(!new)>(rel: Stored -> bool, f: (V, Stored) -> V, kind: Stored -> bool, weight: V -> int) {
    && (forall e :: kind(e) ==> rel(e))
    && (forall v: V, e :: rel(e) ==> weight(f(v, e)) == weight(v) + if kind(e) then 1 else 0)
  }

  /** Counting detects every gap, for ever: the weight equals the number of events up to the mark exactly when no
      application jumped over one - re-applying a skipped event later does not repair it. */
  lemma {:induction false} GapFreeIffCounted<V(!new)>(m: Marked<V>, s: seq<Stored>, at: seq<nat>, rel: Stored -> bool,
                                               f: (V, Stored) -> V,
                                                kind: Stored -> bool, weight: V -> int)
    requires Rising(s) && Counts(rel, f, kind, weight) && forall i | 0 <= i < |at| :: at[i] < |s|
    ensures var r := GuardAll(m, s, at, rel, f);
            && m.last <= r.last
            && weight(r.value) - weight(m.value) <= Number(s, m.last, r.last, kind)
            && (GapFree(m, s, at, rel, f, kind) <==> weight(r.value) - weight(m.value) == Number(s, m.last, r.last, kind))
    decreases |at|
  {
    if at == [] {
      NumberSplits(s, m.last, m.last, m.last, kind);
    } else {
      var e := s[at[0]];
      var u := Guard(m, e, rel, f);
      GapFreeIffCounted(u, s, at[1..], rel, f, kind, weight);
      var r := GuardAll(u, s, at[1..], rel, f);
      if rel(e) && m.last < e.no {
        NumberBetween(s, m.last, at[0], kind);
        NumberSplits(s, m.last, e.no, r.last, kind);
      }
    }
  }

  // ---------------------------------------------------------------- appliers as walkers

  /** Which walker moves next, move after move; each moves on along the stream by one event and stops at its end. */
  predicate Legal(pos: seq<nat>, ends: seq<nat>, picks: seq<nat>)
    requires |pos| == |ends|
    decreases |picks|
  {
    picks == [] ||
    (picks[0] < |pos| && pos[picks[0]] < ends[picks[0]] && Legal(pos[picks[0] := pos[picks[0]] + 1], ends, picks[1..]))
  }

  function Moved(pos: seq<nat>, picks: seq<nat>): (r: seq<nat>)
    ensures |r| == |pos|
    decreases |picks|
  {
    if picks == [] then pos
    else if picks[0] < |pos| then Moved(pos[picks[0] := pos[picks[0]] + 1], picks[1..])
    else Moved(pos, picks[1..])
  }

  /** The positions applied, in order. */
  function Visited(pos: seq<nat>, ends: seq<nat>, picks: seq<nat>, n: nat): (at: seq<nat>)
    requires |pos| == |ends| && Legal(pos, ends, picks) && forall w | 0 <= w < |ends| :: ends[w] <= n
    ensures forall i | 0 <= i < |at| :: at[i] < n
    decreases |picks|
  {
    if picks == [] then [] else [pos[picks[0]]] + Visited(pos[picks[0] := pos[picks[0]] + 1], ends, picks[1..], n)
  }

  /** Everything this walker has passed is behind the row's mark. */
  ghost predicate Passed(s: seq<Stored>, p: nat, last: nat, rel: Stored -> bool) {
    forall j | 0 <= j < p && j < |s| && rel(s[j]) :: s[j].no <= last
  }

  /** Any number of walkers, each starting no further than the row has come and stopping anywhere, in any
      interleaving, leave no gap. */
  lemma {:induction false} WalkersLeaveNoGap<V>(m: Marked<V>, s: seq<Stored>, pos: seq<nat>, ends: seq<nat>,
                                                picks: seq<nat>,
                                          rel: Stored -> bool, f: (V, Stored) -> V)
    requires Rising(s) && |pos| == |ends| && Legal(pos, ends, picks)
    requires forall w | 0 <= w < |ends| :: ends[w] <= |s| && Passed(s, pos[w], m.last, rel)
    ensures GapFree(m, s, Visited(pos, ends, picks, |s|), rel, f, rel)
    ensures forall w | 0 <= w < |pos| ::
                Passed(s, Moved(pos, picks)[w], GuardAll(m, s, Visited(pos, ends, picks, |s|), rel, f).last, rel)
    decreases |picks|
  {
    if picks != [] {
      var w := picks[0];
      var k := pos[w];
      var u := Guard(m, s[k], rel, f);
      var pos' := pos[w := k + 1];
      var at := Visited(pos, ends, picks, |s|);
      assert at[0] == k && at[1..] == Visited(pos', ends, picks[1..], |s|);
      forall x | 0 <= x < |ends| ensures Passed(s, pos'[x], u.last, rel) {
        assert Passed(s, pos[x], m.last, rel);
      }
      WalkersLeaveNoGap(u, s, pos', ends, picks[1..], rel, f);
    }
  }
}
