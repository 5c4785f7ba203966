/** What the guarded tables hold after any mixture of appliers: the plain fold of the stream, exactly when no
    applier jumped over an event. */
module ReadModels {
  import opened Wrappers
  import opened EventLog
  import opened Projection

  function AddCount(v: Counters, e: Stored): Counters { Plus(v, Increment(e)) }

  /** Among these applications, those for campaign `c` are the events at the positions `at`, in that order. */
  predicate Plays(apps: seq<Application>, c: nat, s: seq<Stored>, at: seq<nat>)
    decreases |apps|
  {
    if apps == [] then at == []
    else if apps[0].event.campaign != c then Plays(apps[1..], c, s, at)
    else at != [] && at[0] < |s| && s[at[0]] == apps[0].event && Plays(apps[1..], c, s, at[1..])
  }

  /** A campaign without a row reads as all zeros. */
  function Progress(t: Tables, c: nat): Marked<Counters> {
    if c in t.progress then t.progress[c] else Marked(ZERO, 0)
  }

  // ---------------------------------------------------------------- tables and guarded folds

  lemma ProgressStep(t: Tables, a: Application, c: nat)
    requires a.event.no > 0
    ensures Progress(Project(t, a), c)
            == if a.event.campaign == c then Guard(Progress(t, c), a.event, IsCount, AddCount) else Progress(t, c)
  {
    hide Increment, Plus, ChangeStudy, NewStudy;
    AddToZero(a.event);
  }

  lemma AddToZero(e: Stored)
    ensures AddCount(ZERO, e) == Increment(e)
  {
    hide Increment;
  }

  lemma {:induction false} ProgressRuns(t: Tables, apps: seq<Application>, c: nat, s: seq<Stored>, at: seq<nat>)
    requires StreamOf(s, c) && Plays(apps, c, s, at) && forall i | 0 <= i < |apps| :: apps[i].event.no > 0
    requires forall i | 0 <= i < |at| :: at[i] < |s|
    ensures Progress(ProjectAll(t, apps), c) == GuardAll(Progress(t, c), s, at, IsCount, AddCount)
    decreases |apps|
  {
    if apps != [] {
      ProgressStep(t, apps[0], c);
      ProgressRuns(Project(t, apps[0]), apps[1..], c, s, if apps[0].event.campaign == c then at[1..] else at);
    }
  }

  lemma StudyStep(t: Tables, a: Application, c: nat)
    requires c in t.campaigns
    ensures c in Project(t, a).campaigns
    ensures Project(t, a).campaigns[c]
            == if a.event.campaign == c then Guard(t.campaigns[c], a.event, IsStudyChange, ChangeStudy) else t.campaigns[c]
  {
  }

  lemma {:induction false} StudyRuns(t: Tables, apps: seq<Application>, c: nat, s: seq<Stored>, at: seq<nat>)
    requires StreamOf(s, c) && Plays(apps, c, s, at) && c in t.campaigns
    requires forall i | 0 <= i < |at| :: at[i] < |s|
    ensures c in ProjectAll(t, apps).campaigns
    ensures ProjectAll(t, apps).campaigns[c] == GuardAll(t.campaigns[c], s, at, IsStudyChange, ChangeStudy)
    decreases |apps|
  {
    if apps != [] {
      StudyStep(t, apps[0], c);
      StudyRuns(Project(t, apps[0]), apps[1..], c, s, if apps[0].event.campaign == c then at[1..] else at);
    }
  }

  // ---------------------------------------------------------------- progress

  function Total(v: Counters): int { v.invited + v.started + v.completed + v.abandoned }

  lemma {:induction false} TotalOfFold(s: seq<Stored>, hi: nat)
    ensures Total(Fold(ZERO, s, 0, hi, IsCount, AddCount)) == Number(s, 0, hi, IsCount)
    decreases |s|
  {
    hide Total, AddCount, IsCount;
    if s == [] {
      TotalOfZero();
    } else {
      TotalOfFold(s[..|s| - 1], hi);
      TotalStep(Fold(ZERO, s[..|s| - 1], 0, hi, IsCount, AddCount), s[|s| - 1]);
    }
  }

  lemma TotalOfZero()
    ensures Total(ZERO) == 0
  {
  }

  lemma TotalStep(v: Counters, e: Stored)
    ensures IsCount(e) ==> Total(AddCount(v, e)) == Total(v) + 1
  {
  }

  lemma TotalCounts()
    ensures Counts(IsCount, AddCount, IsCount, Total)
  {
    forall v, e | IsCount(e) ensures Total(AddCount(v, e)) == Total(v) + 1 {
      TotalStep(v, e);
    }
  }

  // What the counters count, kind by kind.

  predicate IsInvite(e: Stored) { e.body.InviteDispatched? }

  predicate IsStart(e: Stored) { e.body.InterviewStarted? }

  predicate IsCompletion(e: Stored) { e.body.InterviewCompleted? }

  predicate IsAbandonment(e: Stored) { e.body.InterviewAbandoned? }

  /** The sums over the completions numbered above `lo` and up to `hi`. */
  function Durations(s: seq<Stored>, lo: nat, hi: nat): int {
    if s == [] then 0
    else
      var e := s[|s| - 1];
      Durations(s[..|s| - 1], lo, hi) + if e.body.InterviewCompleted? && lo < e.no <= hi then e.body.duration else 0
  }

  function Coverages(s: seq<Stored>, lo: nat, hi: nat): real {
    if s == [] then 0.0
    else
      var e := s[|s| - 1];
      Coverages(s[..|s| - 1], lo, hi) + if e.body.InterviewCompleted? && lo < e.no <= hi then e.body.coverage else 0.0
  }

  /** From `v`, the counters have gone on to count each kind of event by itself. */
  predicate CountsOn(v: Counters, r: Counters, s: seq<Stored>, lo: nat, hi: nat) {
    && r.invited == v.invited + Number(s, lo, hi, IsInvite)
    && r.started == v.started + Number(s, lo, hi, IsStart)
    && r.completed == v.completed + Number(s, lo, hi, IsCompletion)
    && r.abandoned == v.abandoned + Number(s, lo, hi, IsAbandonment)
    && r.duration == v.duration + Durations(s, lo, hi)
    && r.coverage == v.coverage + Coverages(s, lo, hi)
  }

  lemma {:induction false} FoldCountsOn(v: Counters, s: seq<Stored>, lo: nat, hi: nat)
    ensures CountsOn(v, Fold(v, s, lo, hi, IsCount, AddCount), s, lo, hi)
    decreases |s|
  {
    if s != [] {
      FoldCountsOn(v, s[..|s| - 1], lo, hi);
    }
  }

  lemma FoldOfNothing(s: seq<Stored>)
    ensures Fold(ZERO, s, 0, 0, IsCount, AddCount) == ZERO
    decreases |s|
  {
    if s != [] {
      FoldOfNothing(s[..|s| - 1]);
    }
  }

  /** The counters of a campaign are the fold of its stream up to their mark if and only if no applier ever jumped
      over a counted event; a jump is never repaired, whatever is re-applied afterwards. */
  lemma ProgressIsFoldIffGapFree(t: Tables, apps: seq<Application>, c: nat, s: seq<Stored>, at: seq<nat>)
    requires StreamOf(s, c) && Plays(apps, c, s, at) && forall i | 0 <= i < |apps| :: apps[i].event.no > 0
    requires c !in t.progress && forall i | 0 <= i < |at| :: at[i] < |s|
    ensures var r := Progress(ProjectAll(t, apps), c);
            GapFree(Marked(ZERO, 0), s, at, IsCount, AddCount, IsCount)
            <==> r.value == Fold(ZERO, s, 0, r.last, IsCount, AddCount)
    ensures var r := Progress(ProjectAll(t, apps), c);
            GapFree(Marked(ZERO, 0), s, at, IsCount, AddCount, IsCount) <==> CountsOn(ZERO, r.value, s, 0, r.last)
  {
    hide Total, AddCount, IsCount, Counts, Fold, GuardAll, GapFree, Number;
    FoldCountsOn(ZERO, s, 0, Progress(ProjectAll(t, apps), c).last);
    var m := Marked(ZERO, 0);
    ProgressRuns(t, apps, c, s, at);
    var r := GuardAll(m, s, at, IsCount, AddCount);
    TotalCounts();
    TotalOfZero();
    GapFreeIffCounted(m, s, at, IsCount, AddCount, IsCount, Total);
    TotalOfFold(s, r.last);
    if GapFree(m, s, at, IsCount, AddCount, IsCount) {
      FoldOfNothing(s);
      GapFreeIsFold(ZERO, m, s, at, 0, IsCount, AddCount);
    }
  }

  /** The tail loop, every synchronisation after a tool call and the worker may interleave as they like. Whatever
      the counters were folded from - nothing, for a campaign without any - if no walker starts further than their
      mark, they are folded on from there, and the mark ends up past everything any of them has applied. */
  lemma ProgressConverges(t: Tables, apps: seq<Application>, c: nat, s: seq<Stored>, pos: seq<nat>, ends: seq<nat>,
                          picks: seq<nat>,
                          v: Counters, lo: nat)
    requires StreamOf(s, c) && forall i | 0 <= i < |apps| :: apps[i].event.no > 0
    requires var m := Progress(t, c); lo <= m.last && m.value == Fold(v, s, lo, m.last, IsCount, AddCount)
    requires |pos| == |ends| && Legal(pos, ends, picks)
    requires forall w | 0 <= w < |ends| :: ends[w] <= |s| && Passed(s, pos[w], Progress(t, c).last, IsCount)
    requires Plays(apps, c, s, Visited(pos, ends, picks, |s|))
    ensures var r := Progress(ProjectAll(t, apps), c);
            && r.value == Fold(v, s, lo, r.last, IsCount, AddCount) && CountsOn(v, r.value, s, lo, r.last)
            && forall w | 0 <= w < |ends| :: Passed(s, Moved(pos, picks)[w], r.last, IsCount)
  {
    hide Fold, GuardAll, GapFree, CountsOn;
    var m, at := Progress(t, c), Visited(pos, ends, picks, |s|);
    WalkersLeaveNoGap(m, s, pos, ends, picks, IsCount, AddCount);
    GapFreeIsFold(v, m, s, at, lo, IsCount, AddCount);
    ProgressRuns(t, apps, c, s, at);
    FoldCountsOn(v, s, lo, Progress(ProjectAll(t, apps), c).last);
  }

  /** In particular, a campaign without counters and walkers that start at the beginning. */
  lemma ProgressFromTheStart(t: Tables, apps: seq<Application>, c: nat, s: seq<Stored>, pos: seq<nat>, ends: seq<nat>,
                             picks: seq<nat>)
    requires StreamOf(s, c) && c !in t.progress && forall i | 0 <= i < |apps| :: apps[i].event.no > 0
    requires |pos| == |ends| && forall w | 0 <= w < |ends| :: pos[w] == 0 && ends[w] <= |s|
    requires Legal(pos, ends, picks) && Plays(apps, c, s, Visited(pos, ends, picks, |s|))
    ensures var r := Progress(ProjectAll(t, apps), c);
            && r.value.invited == Number(s, 0, r.last, IsInvite) && r.value.started == Number(s, 0, r.last, IsStart)
            && r.value.completed == Number(s, 0, r.last, IsCompletion)
            && r.value.abandoned == Number(s, 0, r.last, IsAbandonment)
            && r.value.duration == Durations(s, 0, r.last) && r.value.coverage == Coverages(s, 0, r.last)
            && forall w, j | 0 <= w < |ends| && 0 <= j < Moved(pos, picks)[w] && j < |s| && IsCount(s[j]) :: s[j].no <= r.last
  {
    FoldOfNothing(s);
    ProgressConverges(t, apps, c, s, pos, ends, picks, ZERO, 0);
  }

  // ---------------------------------------------------------------- campaign rows

  predicate IsSpecUpdate(e: Stored) { e.body.SpecUpdated? }

  function Version(v: Study): int { v.version }

  // What a campaign row shows, column by column.

  predicate IsLifecycle(e: Stored) { e.body.CampaignReady? || e.body.CampaignPublished? || e.body.CampaignClosed? }

  predicate NamesTitle(e: Stored) {
    e.body.SpecUpdated? && "title" in e.body.patch && e.body.patch["title"].Str?
  }

  predicate Sets(e: Stored, key: string) { e.body.SpecUpdated? && key in e.body.patch }

  /** The last event of a kind numbered above `lo` and up to `hi`. */
  function Last(s: seq<Stored>, lo: nat, hi: nat, kind: Stored -> bool): (k: Option<nat>)
    ensures k.Some? ==> k.value < |s| && kind(s[k.value]) && lo < s[k.value].no <= hi
    ensures forall j | 0 <= j < |s| && kind(s[j]) && lo < s[j].no <= hi :: k.Some? && j <= k.value
  {
    if s == [] then None
    else if kind(s[|s| - 1]) && lo < s[|s| - 1].no <= hi then Some(|s| - 1)
    else Last(s[..|s| - 1], lo, hi, kind)
  }

  /** The row has gone on from `v` to show the last of everything: the title of the last patch with one that is text,
      each other field as the last patch that names it has it, the stage of the last lifecycle event. */
  ghost predicate Shows(v: Study, r: Study, s: seq<Stored>, lo: nat, hi: nat) {
    && r.org == v.org && r.author == v.author
    && r.version == v.version + Number(s, lo, hi, IsSpecUpdate)
    && TimeShown(v, r, s, lo, hi) && TitleShown(v, r, s, lo, hi) && StageShown(v, r, s, lo, hi)
    && forall key :: FieldShown(v, r, s, lo, hi, key)
  }

  predicate TimeShown(v: Study, r: Study, s: seq<Stored>, lo: nat, hi: nat) {
    var k := Last(s, lo, hi, IsStudyChange);
    r.updated == if k.Some? then s[k.value].at else v.updated
  }

  predicate TitleShown(v: Study, r: Study, s: seq<Stored>, lo: nat, hi: nat) {
    var k := Last(s, lo, hi, NamesTitle);
    r.title == if k.Some? then s[k.value].body.patch["title"].text else v.title
  }

  predicate StageShown(v: Study, r: Study, s: seq<Stored>, lo: nat, hi: nat) {
    match Last(s, lo, hi, IsLifecycle)
    case None => r.stage == v.stage
    case Some(k) =>
      && (r.stage == Ready <==> s[k].body.CampaignReady?) && (r.stage == Published <==> s[k].body.CampaignPublished?)
      && (r.stage == Closed <==> s[k].body.CampaignClosed?)
  }

  /** The title is no field of the specification. */
  ghost predicate FieldShown(v: Study, r: Study, s: seq<Stored>, lo: nat, hi: nat, key: string) {
    var k := if key == "title" then None else Last(s, lo, hi, e => Sets(e, key));
    && (key in r.spec <==> k.Some? || key in v.spec)
    && (key in r.spec ==> r.spec[key] == if k.Some? then s[k.value].body.patch[key] else v.spec[key])
  }

  function Moves(u: Study, e: Stored, lo: nat, hi: nat): Study {
    if IsStudyChange(e) && lo < e.no <= hi then ChangeStudy(u, e) else u
  }

  lemma {:induction false} FoldShows(v: Study, s: seq<Stored>, lo: nat, hi: nat)
    ensures Shows(v, Fold(v, s, lo, hi, IsStudyChange, ChangeStudy), s, lo, hi)
    decreases |s|
  {
    hide TimeShown, TitleShown, StageShown, FieldShown, ChangeStudy;
    if s == [] {
      NothingShown(v, lo, hi);
    } else {
      FoldShows(v, s[..|s| - 1], lo, hi);
      var u := Fold(v, s[..|s| - 1], lo, hi, IsStudyChange, ChangeStudy);
      RestMoves(u, s[|s| - 1], lo, hi);
      TitleMoves(v, u, s, lo, hi);
      StageMoves(v, u, s, lo, hi);
      var r := Moves(u, s[|s| - 1], lo, hi);
      forall key ensures FieldShown(v, r, s, lo, hi, key) {
        FieldMoves(v, u, s, lo, hi, key);
      }
    }
  }

  lemma NothingShown(v: Study, lo: nat, hi: nat)
    ensures Shows(v, v, [], lo, hi)
  {
  }

  lemma RestMoves(u: Study, e: Stored, lo: nat, hi: nat)
    ensures var r := Moves(u, e, lo, hi);
            && r.org == u.org && r.author == u.author
            && r.version == u.version + if IsSpecUpdate(e) && lo < e.no <= hi then 1 else 0
  {
  }

  lemma TitleMoves(v: Study, u: Study, s: seq<Stored>, lo: nat, hi: nat)
    requires s != [] && TitleShown(v, u, s[..|s| - 1], lo, hi) && TimeShown(v, u, s[..|s| - 1], lo, hi)
    ensures var r := Moves(u, s[|s| - 1], lo, hi); TitleShown(v, r, s, lo, hi) && TimeShown(v, r, s, lo, hi)
  {
    hide SpecPatch;
  }

  lemma StageMoves(v: Study, u: Study, s: seq<Stored>, lo: nat, hi: nat)
    requires s != [] && StageShown(v, u, s[..|s| - 1], lo, hi)
    ensures StageShown(v, Moves(u, s[|s| - 1], lo, hi), s, lo, hi)
  {
    hide SpecPatch, NewTitle;
  }

  lemma FieldMoves(v: Study, u: Study, s: seq<Stored>, lo: nat, hi: nat, key: string)
    requires s != [] && FieldShown(v, u, s[..|s| - 1], lo, hi, key)
    ensures FieldShown(v, Moves(u, s[|s| - 1], lo, hi), s, lo, hi, key)
  {
    hide NewTitle;
  }

  /** Once the row exists, walkers that start no further than its mark keep title, stage, specification and
      version equal to the fold of the stream. */
  lemma StudyConverges(t: Tables, apps: seq<Application>, c: nat, s: seq<Stored>, pos: seq<nat>, ends: seq<nat>,
                       picks: seq<nat>)
    requires StreamOf(s, c) && c in t.campaigns && |pos| == |ends| && Legal(pos, ends, picks)
    requires forall w | 0 <= w < |ends| :: ends[w] <= |s| && Passed(s, pos[w], t.campaigns[c].last, IsStudyChange)
    requires Plays(apps, c, s, Visited(pos, ends, picks, |s|))
    ensures c in ProjectAll(t, apps).campaigns
    ensures var m, r := t.campaigns[c], ProjectAll(t, apps).campaigns[c];
            && r.value == Fold(m.value, s, m.last, r.last, IsStudyChange, ChangeStudy)
            && Shows(m.value, r.value, s, m.last, r.last)
            && forall w | 0 <= w < |ends| :: Passed(s, Moved(pos, picks)[w], r.last, IsStudyChange)
  {
    var m, at := t.campaigns[c], Visited(pos, ends, picks, |s|);
    StudyRuns(t, apps, c, s, at);
    WalkersLeaveNoGap(m, s, pos, ends, picks, IsStudyChange, ChangeStudy);
    FoldOfNoRange(m.value, s, m.last);
    GapFreeIsFold(m.value, m, s, at, m.last, IsStudyChange, ChangeStudy);
    FoldShows(m.value, s, m.last, ProjectAll(t, apps).campaigns[c].last);
  }

  /** In particular, from the draft that inserts the row. */
  lemma StudyFromItsDraft(t: Tables, draft: Stored, x: Context, apps: seq<Application>, s: seq<Stored>, pos: seq<nat>,
                          ends: seq<nat>, picks: seq<nat>)
    requires var c := draft.campaign; StreamOf(s, c) && c !in t.campaigns && draft.body.StudyDrafted?
    requires |pos| == |ends| && Legal(pos, ends, picks)
    requires forall w | 0 <= w < |ends| :: ends[w] <= |s| && Passed(s, pos[w], draft.no, IsStudyChange)
    requires Plays(apps, draft.campaign, s, Visited(pos, ends, picks, |s|))
    ensures var c, t' := draft.campaign, ProjectAll(Project(t, Application(draft, Some(x))), apps);
            && c in t'.campaigns
            && var r := t'.campaigns[c];
               Shows(Study(x.org, draft.body.author, draft.body.title, Draft, x.spec, 1, draft.at), r.value, s, draft.no, r.last)
  {
    StudyConverges(Project(t, Application(draft, Some(x))), apps, draft.campaign, s, pos, ends, picks);
  }

  lemma FoldOfNoRange(v: Study, s: seq<Stored>, n: nat)
    ensures Fold(v, s, n, n, IsStudyChange, ChangeStudy) == v
    decreases |s|
  {
    if s != [] {
      FoldOfNoRange(v, s[..|s| - 1], n);
    }
  }

  /** The version counts the specification updates, and is short by one for each one jumped over - for ever. */
  lemma VersionCountsIffGapFree(m: Marked<Study>, s: seq<Stored>, at: seq<nat>)
    requires Rising(s) && forall i | 0 <= i < |at| :: at[i] < |s|
    ensures var r := GuardAll(m, s, at, IsStudyChange, ChangeStudy);
            && r.value.version - m.value.version <= Number(s, m.last, r.last, IsSpecUpdate)
            && (GapFree(m, s, at, IsStudyChange, ChangeStudy, IsSpecUpdate)
                <==> r.value.version - m.value.version == Number(s, m.last, r.last, IsSpecUpdate))
  {
    assert Counts(IsStudyChange, ChangeStudy, IsSpecUpdate, Version);
    GapFreeIffCounted(m, s, at, IsStudyChange, ChangeStudy, IsSpecUpdate, Version);
  }

  /** The tail loop may reach an update before the request that drafted the study has inserted its row. The update
      then does nothing, the next one jumps over it, and no later synchronisation - however it re-applies the
      stream - ever brings it back. */
  lemma UpdateBeforeTheRowIsLost(t: Tables, draft: Stored, x: Context, i: nat, j: nat, s: seq<Stored>,
                                 later: seq<Application>, at: seq<nat>)
    requires StreamOf(s, draft.campaign) && draft.campaign !in t.campaigns && draft.body.StudyDrafted?
    requires i < j < |s| && draft.no < s[i].no && IsSpecUpdate(s[i]) && IsSpecUpdate(s[j])
    requires Plays(later, draft.campaign, s, at) && forall k | 0 <= k < |at| :: at[k] < |s|
    ensures var t' := ProjectAll(Project(Project(Project(t, Application(s[i], None)), Application(draft, Some(x))),
                                         Application(s[j], None)), later);
            && draft.campaign in t'.campaigns
            && t'.campaigns[draft.campaign].value.version - 1 < Number(s, draft.no, t'.campaigns[draft.campaign].last,
                   IsSpecUpdate)
  {
    var c := draft.campaign;
    var t1 := Project(Project(t, Application(s[i], None)), Application(draft, Some(x)));
    var m := t1.campaigns[c];
    assert m == Marked(NewStudy(draft, x), draft.no);
    var t2 := Project(t1, Application(s[j], None));
    StudyStep(t1, Application(s[j], None), c);
    StudyRuns(t2, later, c, s, at);
    var all := [j] + at;
    assert all[1..] == at;
    assert GuardAll(m, s, all, IsStudyChange, ChangeStudy) == GuardAll(t2.campaigns[c], s, at, IsStudyChange, ChangeStudy);
    assert !NoJump(s, m.last, s[j].no, IsSpecUpdate) by {
      assert s[i].no < s[j].no && s[i].no > m.last;
    }
    VersionCountsIffGapFree(m, s, all);
  }

  // ---------------------------------------------------------------- a specification loaded ahead of its events

  function OwnPatch(e: Stored, lo: nat, hi: nat): seq<Spec> {
    if e.body.SpecUpdated? && lo < e.no <= hi then [SpecPatch(e.body.patch)] else []
  }

  function Patches(s: seq<Stored>, lo: nat, hi: nat): seq<Spec>
    decreases |s|
  {
    if s == [] then [] else Patches(s[..|s| - 1], lo, hi) + OwnPatch(s[|s| - 1], lo, hi)
  }

  function Merge(spec: Spec, ps: seq<Spec>): Spec
    decreases |ps|
  {
    if ps == [] then spec else Merge(spec + ps[0], ps[1..])
  }

  function KeysOf(ps: seq<Spec>): set<string>
    decreases |ps|
  {
    if ps == [] then {} else ps[0].Keys + KeysOf(ps[1..])
  }

  ghost predicate AgreeOutside(x: Spec, y: Spec, keys: set<string>) {
    forall k | k !in keys :: (k in x <==> k in y) && (k in x ==> x[k] == y[k])
  }

  lemma {:induction false} MergeForgets(x: Spec, y: Spec, ps: seq<Spec>)
    requires AgreeOutside(x, y, KeysOf(ps))
    ensures Merge(x, ps) == Merge(y, ps)
    decreases |ps|
  {
    if ps == [] {
      assert x == y;
    } else {
      MergeForgets(x + ps[0], y + ps[0], ps[1..]);
    }
  }

  lemma {:induction false} MergeTouchesItsKeys(x: Spec, ps: seq<Spec>)
    ensures AgreeOutside(x, Merge(x, ps), KeysOf(ps))
    decreases |ps|
  {
    if ps != [] {
      MergeTouchesItsKeys(x + ps[0], ps[1..]);
    }
  }

  lemma {:induction false} MergeAppend(x: Spec, ps: seq<Spec>, qs: seq<Spec>)
    ensures Merge(x, ps + qs) == Merge(Merge(x, ps), qs)
    decreases |ps|
  {
    if ps == [] {
      assert ps + qs == qs;
    } else {
      assert (ps + qs)[1..] == ps[1..] + qs;
      MergeAppend(x + ps[0], ps[1..], qs);
    }
  }

  lemma {:induction false} PatchesSplit(s: seq<Stored>, lo: nat, mid: nat, hi: nat)
    requires Rising(s) && lo <= mid <= hi
    ensures Patches(s, lo, hi) == Patches(s, lo, mid) + Patches(s, mid, hi)
    decreases |s|
  {
    hide Patches, OwnPatch;
    if s == [] {
      NoPatches(s, lo, hi);
      NoPatches(s, lo, mid);
      NoPatches(s, mid, hi);
    } else {
      var n := |s| - 1;
      PatchesSplit(s[..n], lo, mid, hi);
      PatchesStep(s, lo, mid, hi);
      if s[n].no <= mid {
        NoPatches(s[..n], mid, hi);
      }
      JoinFour(Patches(s[..n], lo, mid), OwnPatch(s[n], lo, mid), Patches(s[..n], mid, hi), OwnPatch(s[n], mid, hi));
    }
  }

  lemma PatchesStep(s: seq<Stored>, lo: nat, mid: nat, hi: nat)
    requires s != [] && lo <= mid <= hi
    ensures var n := |s| - 1;
            && Patches(s, lo, hi) == Patches(s[..n], lo, hi) + OwnPatch(s[n], lo, hi)
            && Patches(s, lo, mid) == Patches(s[..n], lo, mid) + OwnPatch(s[n], lo, mid)
            && Patches(s, mid, hi) == Patches(s[..n], mid, hi) + OwnPatch(s[n], mid, hi)
            && OwnPatch(s[n], lo, hi) == OwnPatch(s[n], lo, mid) + OwnPatch(s[n], mid, hi)
            && (s[n].no > mid ==> OwnPatch(s[n], lo, mid) == [])
  {
  }

  lemma JoinFour(a: seq<Spec>, b: seq<Spec>, c: seq<Spec>, d: seq<Spec>)
    requires b == [] || c == []
    ensures (a + c) + (b + d) == (a + b) + (c + d)
  {
  }

  lemma {:induction false} NoPatches(s: seq<Stored>, mid: nat, hi: nat)
    requires forall i | 0 <= i < |s| :: s[i].no <= mid
    ensures Patches(s, mid, hi) == []
    decreases |s|
  {
    if s != [] {
      NoPatches(s[..|s| - 1], mid, hi);
    }
  }

  /** Only the specification depends on the specification one starts from. */
  lemma {:induction false} FoldOfSpec(v: Study, x: Spec, s: seq<Stored>, lo: nat, hi: nat)
    ensures Fold(v.(spec := x), s, lo, hi, IsStudyChange, ChangeStudy)
            == Fold(v, s, lo, hi, IsStudyChange, ChangeStudy).(spec := Merge(x, Patches(s, lo, hi)))
    decreases |s|
  {
    if s != [] {
      var n := |s| - 1;
      FoldOfSpec(v, x, s[..n], lo, hi);
      var before := Patches(s[..n], lo, hi);
      if s[n].body.SpecUpdated? && lo < s[n].no <= hi {
        var patch := SpecPatch(s[n].body.patch);
        MergeAppend(x, before, [patch]);
        assert Merge(Merge(x, before), [patch]) == Merge(Merge(x, before) + patch, [patch][1..]);
      } else {
        assert Patches(s, lo, hi) == before;
      }
    }
  }

  /** A row drafted from a specification that already contains the patches up to number `ahead` is the same row as
      one drafted from the original, as soon as those patches have been applied to it again. */
  lemma SpecAgreesOnceCaughtUp(v: Study, s: seq<Stored>, lo: nat, ahead: nat, n: nat)
    requires Rising(s) && lo <= ahead <= n
    ensures Fold(v.(spec := Merge(v.spec, Patches(s, lo, ahead))), s, lo, n, IsStudyChange, ChangeStudy)
            == Fold(v, s, lo, n, IsStudyChange, ChangeStudy)
  {
    var early, late := Patches(s, lo, ahead), Patches(s, ahead, n);
    var loaded := Merge(v.spec, early);
    PatchesSplit(s, lo, ahead, n);
    MergeTouchesItsKeys(v.spec, early);
    MergeForgets(v.spec, loaded, early);
    MergeAppend(v.spec, early, late);
    MergeAppend(loaded, early, late);
    FoldOfSpec(v, loaded, s, lo, n);
    FoldOfSpec(v, v.spec, s, lo, n);
  }

  /** Until then it may not be: an older patch takes a field back to a value that is neither the loaded one nor,
      for a reader of the log, the current one. */
  lemma SpecMayStepBack(v: Study, first: Stored, second: Stored, key: string, earlier: Json, newer: Json)
    requires first.no == 1 && second.no == 2 && key != TITLE && earlier != newer
    requires first.body == SpecUpdated(map[key := earlier]) && second.body == SpecUpdated(map[key := newer])
    ensures var s := [first, second];
            var loaded := v.(spec := Merge(v.spec, Patches(s, 0, 2)));
            && Rising(s)
            && key in loaded.spec && loaded.spec[key] == newer
            && key in Fold(loaded, s, 0, 1, IsStudyChange, ChangeStudy).spec
            && Fold(loaded, s, 0, 1, IsStudyChange, ChangeStudy).spec[key] == earlier
  {
    var s := [first, second];
    assert s[..1] == [first] && [first][..0] == [];
    assert SpecPatch(map[key := earlier]) == map[key := earlier] && SpecPatch(map[key := newer]) == map[key := newer];
    var p, q := map[key := earlier], map[key := newer];
    assert Patches([first], 0, 2) == [] + [p];
    assert Patches(s, 0, 2) == [p, q];
    assert [p, q][1..] == [q] && [q][1..] == [];
    assert Merge(v.spec + p, [q]) == Merge(v.spec + p + q, []);
    assert Merge(v.spec, [p, q]) == v.spec + p + q;
    var loaded := v.(spec := Merge(v.spec, Patches(s, 0, 2)));
    assert Fold(loaded, s[..1], 0, 1, IsStudyChange, ChangeStudy)
        == ChangeStudy(Fold(loaded, [], 0, 1, IsStudyChange, ChangeStudy), first);
  }
}
