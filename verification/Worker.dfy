/** What the analysis worker reads from a campaign's stream: the transcripts of its completed interviews. */
module Worker {
  import opened Wrappers
  import opened Interview
  import opened Evidence

  datatype Transcript = Transcript(interview: nat, turns: seq<Turn>)

  /** The turns among an interview's own events, in order. */
  function TurnsIn(es: seq<Event>): seq<Turn> {
    if es == [] then []
    else
      var e := es[|es| - 1];
      TurnsIn(es[..|es| - 1]) + if e.TurnRecorded? then [Turn(e.role, e.text)] else []
  }

  predicate IsDone(es: seq<Event>) { exists k :: 0 <= k < |es| && es[k].InterviewCompleted? }

  /** The transcripts of a stream: one for each completed interview with turns, by increasing id, with all its turns. */
  ghost predicate AreTranscripts(log: seq<Logged>, campaign: nat, ts: seq<Transcript>) {
    && (forall a, b | 0 <= a < b < |ts| :: ts[a].interview < ts[b].interview)
    && (forall a | 0 <= a < |ts| :: IsDone(Own(log, campaign, ts[a].interview))
                                    && ts[a].turns == TurnsIn(Own(log, campaign, ts[a].interview)) != [])
    && (forall i: nat | IsDone(Own(log, campaign, i)) && TurnsIn(Own(log, campaign, i)) != [] :: exists a ::
           0 <= a < |ts| && ts[a].interview == i)
  }

  function Added(e: Logged, campaign: nat, i: nat): seq<Event> {
    if e.campaign == campaign && e.body.InterviewEvent? && e.body.interview == i then [e.body.event] else []
  }

  lemma OwnStep(log: seq<Logged>, k: nat, campaign: nat, i: nat)
    requires k < |log|
    ensures var e := log[k];
            var more := Added(e, campaign, i);
            && Own(log[..k + 1], campaign, i) == Own(log[..k], campaign, i) + more
            && TurnsIn(Own(log[..k + 1], campaign, i)) == TurnsIn(Own(log[..k], campaign, i)) + TurnsIn(more)
            && (IsDone(Own(log[..k + 1], campaign, i)) <==> IsDone(Own(log[..k], campaign, i)) || IsDone(more))
  {
    assert log[..k + 1][..k] == log[..k];
    var es, e := Own(log[..k], campaign, i), log[k];
    if e.campaign == campaign && e.body.InterviewEvent? && e.body.interview == i {
      var all := es + [e.body.event];
      assert all[..|es|] == es && [e.body.event][..0] == [];
      if IsDone(es) {
        var j :| 0 <= j < |es| && es[j].InterviewCompleted?;
        assert all[j].InterviewCompleted?;
      }
      if IsDone([e.body.event]) {
        assert all[|es|].InterviewCompleted?;
      }
    } else {
      assert es + [] == es;
    }
  }

  /** Collects turns and completions in one loop, then lists the completed interviews that have turns. */
  method CompletedTranscripts(log: seq<Logged>, campaign: nat) returns (ts: seq<Transcript>)
    ensures AreTranscripts(log, campaign, ts)
  {
    hide TurnsIn, IsDone, Own;
    var completed: set<nat> := {};
    var turns: map<nat, seq<Turn>> := map[];
    forall i: nat ensures TurnsIn(Own(log[..0], campaign, i)) == [] && !IsDone(Own(log[..0], campaign, i)) {
      Nothing(campaign, i);
    }
    for k := 0 to |log|
      invariant forall i: nat :: i in completed <==> IsDone(Own(log[..k], campaign, i))
      invariant forall i: nat :: (if i in turns then turns[i] else []) == TurnsIn(Own(log[..k], campaign, i))
    {
      var e := log[k];
      forall i: nat
        ensures TurnsIn(Own(log[..k + 1], campaign, i)) == TurnsIn(Own(log[..k], campaign, i)) + TurnsIn(Added(e, campaign, i))
        ensures IsDone(Own(log[..k + 1], campaign, i)) <==> IsDone(Own(log[..k], campaign, i)) || IsDone(Added(e, campaign, i))
      {
        OwnStep(log, k, campaign, i);
      }
      OneEvent(e);
      if e.campaign == campaign && e.body.InterviewEvent? {
        var i := e.body.interview;
        if e.body.event.TurnRecorded? {
          turns := turns[i := (if i in turns then turns[i] else []) + [Turn(e.body.event.role, e.body.event.text)]];
        } else {
          completed := completed + {i};
        }
      }
    }
    assert log[..|log|] == log;
    ts := Listed(completed, turns);
  }

  lemma Nothing(campaign: nat, i: nat)
    ensures TurnsIn(Own([], campaign, i)) == [] && !IsDone(Own([], campaign, i))
  {
  }

  lemma OneEvent(e: Logged)
    ensures TurnsIn([]) == [] && !IsDone([])
    ensures e.body.InterviewEvent? ==>
              && TurnsIn([e.body.event])
                     == (if e.body.event.TurnRecorded? then [Turn(e.body.event.role, e.body.event.text)] else [])
              && IsDone([e.body.event]) == e.body.event.InterviewCompleted?
  {
    if e.body.InterviewEvent? {
      var es := [e.body.event];
      assert es[..0] == [];
      assert es[0] == e.body.event;
    }
  }

  method Least(s: set<nat>) returns (m: nat)
    requires s != {}
    ensures m in s && forall x | x in s :: m <= x
  {
    m :| m in s;
    var left := s - {m};
    while left != {}
      invariant left <= s && m in s && forall x | x in s && x !in left :: m <= x
      decreases left
    {
      var x :| x in left;
      left := left - {x};
      if x < m {
        m := x;
      }
    }
  }

  method Listed(completed: set<nat>, turns: map<nat, seq<Turn>>) returns (ts: seq<Transcript>)
    ensures forall a, b | 0 <= a < b < |ts| :: ts[a].interview < ts[b].interview
    ensures forall a | 0 <= a < |ts| :: ts[a].interview in completed && ts[a].interview in turns && ts[a].turns
                == turns[ts[a].interview] != []
    ensures forall i | i in completed && i in turns && turns[i] != [] :: exists a :: 0 <= a < |ts| && ts[a].interview == i
  {
    ts := [];
    var left := completed;
    while left != {}
      invariant left <= completed
      invariant forall a | 0 <= a < |ts| ::
                    ts[a].interview in completed && ts[a].interview in turns && ts[a].turns == turns[ts[a].interview] != []
      invariant forall a, x | 0 <= a < |ts| && x in left :: ts[a].interview < x
      invariant forall a, b | 0 <= a < b < |ts| :: ts[a].interview < ts[b].interview
      invariant forall i | i in completed && i !in left && i in turns && turns[i] != [] :: exists a ::
                    0 <= a < |ts| && ts[a].interview == i
      decreases left
    {
      var i := Least(left);
      left := left - {i};
      if i in turns && turns[i] != [] {
        ghost var was := ts;
        ts := ts + [Transcript(i, turns[i])];
        assert ts[|was|].interview == i;
        forall x | x in completed && x !in left && x in turns && turns[x] != [] ensures exists a ::
            0 <= a < |ts| && ts[a].interview == x {
          if x != i {
            var a :| 0 <= a < |was| && was[a].interview == x;
            assert ts[a].interview == x;
          }
        }
      }
    }
  }

  /** The transcripts depend only on each interview's own events in their own order: however the interviews'
      events are interleaved in the log, the worker sends the same ones. */
  lemma TranscriptsIgnoreInterleaving(x: seq<Logged>, y: seq<Logged>, campaign: nat, ts: seq<Transcript>,
                                      us: seq<Transcript>)
    requires forall i: nat :: Own(x, campaign, i) == Own(y, campaign, i)
    requires AreTranscripts(x, campaign, ts) && AreTranscripts(y, campaign, us)
    ensures ts == us
  {
    hide TurnsIn, IsDone, Own;
    SameListing(x, campaign, ts, us, 0);
  }

  lemma {:induction false} SameListing(x: seq<Logged>, campaign: nat, ts: seq<Transcript>, us: seq<Transcript>, k: nat)
    requires AreTranscripts(x, campaign, ts) && AreTranscripts(x, campaign, us)
    requires k <= |ts| && k <= |us| && forall b | 0 <= b < k :: us[b] == ts[b]
    ensures ts == us
    decreases |ts| - k
  {
    hide TurnsIn, IsDone, Own;
    if k < |ts| || k < |us| {
      if k < |ts| {
        NotAfter(x, campaign, ts, us, k);
      }
      if k < |us| {
        NotAfter(x, campaign, us, ts, k);
      }
      SameListing(x, campaign, ts, us, k + 1);
    }
  }

  /** The interview listed at `k` on one side is listed there or later on the other. */
  lemma NotAfter(x: seq<Logged>, campaign: nat, ts: seq<Transcript>, us: seq<Transcript>, k: nat)
    requires AreTranscripts(x, campaign, ts) && AreTranscripts(x, campaign, us)
    requires k < |ts| && k <= |us| && forall b | 0 <= b < k :: us[b] == ts[b]
    ensures k < |us| && us[k].interview <= ts[k].interview
  {
    hide TurnsIn, IsDone, Own;
    forall b | 0 <= b < k ensures us[b].interview != ts[k].interview {
      assert us[b] == ts[b];
    }
    var b :| 0 <= b < |us| && us[b].interview == ts[k].interview;
  }

  /** An interview's transcript has the turns its events record, and is complete; it has been completed exactly when
      some event says so. */
  lemma {:induction false} TurnsAre(log: seq<Logged>, campaign: nat, i: nat)
    ensures var ts, at := TurnsIn(Own(log, campaign, i)), TurnPlaces(log, campaign, i);
            && |ts| == |at|
            && forall k | 0 <= k < |at| :: ts[k].role == log[at[k]].body.event.role && ts[k].text == log[at[k]].body.event.text
    ensures IsDone(Own(log, campaign, i)) <==> exists k :: 0 <= k < |log| && IsCompletion(log[k], campaign, i)
    decreases |log|
  {
    hide TurnsIn, IsDone, Own, TurnPlaces;
    if log == [] {
      Nothing(campaign, i);
      NoPlaces(campaign, i);
    } else {
      var n := |log| - 1;
      var before := log[..n];
      TurnsAre(before, campaign, i);
      OwnStep(log, n, campaign, i);
      assert log[..n + 1] == log;
      OneEvent(log[n]);
      PlacesStep(log, campaign, i);
      assert forall k | 0 <= k < n :: before[k] == log[k];
    }
  }

  lemma NoPlaces(campaign: nat, i: nat)
    ensures TurnPlaces([], campaign, i) == []
  {
  }

  lemma PlacesStep(log: seq<Logged>, campaign: nat, i: nat)
    requires log != []
    ensures var n := |log| - 1;
            TurnPlaces(log, campaign, i) == TurnPlaces(log[..n], campaign, i) + if IsTurn(log[n], campaign, i) then [n] else []
  {
  }

  /** The worker's transcript and the row of the evidence page show the same turns. */
  lemma TranscriptAgreesWithEvidence(log: seq<Logged>, campaign: nat, i: nat, guide: Option<seq<nat>>)
    requires RowOf(log, campaign, i, guide).Some?
    ensures var ts, turns := TurnsIn(Own(log, campaign, i)), RowOf(log, campaign, i, guide).value.turns;
            |ts| == |turns| && forall k | 0 <= k < |ts| :: ts[k] == Turn(turns[k].role, turns[k].text)
  {
    hide TurnsIn, Own, RowOf;
    TurnsAre(log, campaign, i);
    RowTells(log, campaign, i, guide);
  }
}
