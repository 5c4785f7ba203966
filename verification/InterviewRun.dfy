/** Whole interviews: a bound on their length, no question skipped or revisited, and the coverage they report. */
module InterviewRun {
  import opened Wrappers
  import opened Interview

  // ---------------------------------------------------------------- average coverage

  ghost function SumOver(keys: set<nat>, m: map<nat, real>): real
    requires keys <= m.Keys
  {
    if keys == {} then 0.0 else var k :| k in keys; m[k] + SumOver(keys - {k}, m)
  }

  lemma SumPick(keys: set<nat>, m: map<nat, real>) returns (p: nat)
    requires keys <= m.Keys && keys != {}
    ensures p in keys && SumOver(keys, m) == m[p] + SumOver(keys - {p}, m)
  {
    p :| p in keys && SumOver(keys, m) == m[p] + SumOver(keys - {p}, m);
  }

  lemma {:induction false} SumWithout(keys: set<nat>, m: map<nat, real>, k: nat)
    requires keys <= m.Keys && k in keys
    ensures SumOver(keys, m) == m[k] + SumOver(keys - {k}, m)
    decreases keys
  {
    hide SumOver;
    var p := SumPick(keys, m);
    if p != k {
      SumWithout(keys - {p}, m, k);
      SumWithout(keys - {k}, m, p);
      assert keys - {p} - {k} == keys - {k} - {p};
    }
  }

  /** The average is the number that, times the entries, gives their sum. */
  ghost predicate IsAverage(m: map<nat, real>, avg: real) {
    if m.Keys == {} then avg == 0.0 else avg * |m.Keys| as real == SumOver(m.Keys, m)
  }

  method AvgCoverage(coverage: map<nat, real>) returns (avg: real)
    ensures IsAverage(coverage, avg)
  {
    var n := |coverage.Keys|;
    if n == 0 {
      return 0.0;
    }
    var sum := SumValues(coverage);
    avg := sum / n as real;
  }

  method SumValues(m: map<nat, real>) returns (sum: real)
    ensures sum == SumOver(m.Keys, m)
  {
    hide SumOver;
    sum := 0.0;
    var left := m.Keys;
    while left != {}
      invariant left <= m.Keys && sum + SumOver(left, m) == SumOver(m.Keys, m)
      decreases left
    {
      var k :| k in left;
      SumWithout(left, m, k);
      sum, left := sum + m[k], left - {k};
    }
    SumOfNone(m);
  }

  lemma SumOfNone(m: map<nat, real>)
    ensures SumOver({}, m) == 0.0
  {
  }

  function Ids(items: seq<Item>, n: nat): set<nat>
    requires n <= |items|
  {
    if n == 0 then {} else Ids(items, n - 1) + {items[n - 1].id}
  }

  lemma {:induction false} IdsMembers(items: seq<Item>, n: nat)
    requires n <= |items|
    ensures forall k :: k in Ids(items, n) <==> exists j :: 0 <= j < n && items[j].id == k
  {
    if n > 0 {
      IdsMembers(items, n - 1);
      forall k ensures k in Ids(items, n) <==> exists j :: 0 <= j < n && items[j].id == k {
        assert k in Ids(items, n) <==> k in Ids(items, n - 1) || k == items[n - 1].id;
        if k in Ids(items, n - 1) {
          var j :| 0 <= j < n - 1 && items[j].id == k;
        }
      }
    }
  }

  lemma {:induction false} IdsCount(items: seq<Item>, n: nat)
    requires Distinct(items) && n <= |items|
    ensures |Ids(items, n)| == n
  {
    if n > 0 {
      IdsCount(items, n - 1);
      IdsMembers(items, n - 1);
      assert items[n - 1].id !in Ids(items, n - 1);
    }
  }

  lemma IdsAre(items: seq<Item>, n: nat)
    requires Distinct(items) && n <= |items|
    ensures forall k :: k in Ids(items, n) <==> exists j :: 0 <= j < n && items[j].id == k
    ensures |Ids(items, n)| == n
  {
    IdsMembers(items, n);
    IdsCount(items, n);
  }

  /** The sum over the first `n` items of a guide, all covered but the last, which has `c`. */
  lemma {:induction false} SumCovered(items: seq<Item>, m: map<nat, real>, n: nat, c: real)
    requires Distinct(items) && 0 < n <= |items| && Ids(items, n) <= m.Keys
    requires forall j | 0 <= j < n :: items[j].id in m && m[items[j].id] == if j == n - 1 then c else 1.0
    ensures SumOver(Ids(items, n), m) == (n - 1) as real + c
    decreases n
  {
    hide SumOver, Distinct;
    var last := items[n - 1].id;
    IdsAre(items, n - 1);
    assert last !in Ids(items, n - 1) by { LastIsNew(items, n); }
    SumWithout(Ids(items, n), m, last);
    assert Ids(items, n) - {last} == Ids(items, n - 1);
    if n == 1 {
      SumOfNone(m);
    } else {
      SumCovered(items, m, n - 1, 1.0);
    }
  }

  lemma LastIsNew(items: seq<Item>, n: nat)
    requires Distinct(items) && 0 < n <= |items|
    ensures items[n - 1].id !in Ids(items, n - 1)
  {
    IdsAre(items, n - 1);
  }

  // ---------------------------------------------------------------- one reply

  /** The average over the items touched, when an interview wraps up at this spot. */
  function Coverage(spot: Spot, finished: bool): real {
    if finished then 1.0 else (spot.at as real + HalfIf(spot.used > 0)) / (spot.at + 1) as real
  }

  lemma WrapCoverage(items: seq<Item>, spot: Spot, finished: bool, coverage: map<nat, real>, followups: map<nat, int>,
                     current: Option<nat>, avg: real)
    requires IsGuide(items) && OnGuide(items, spot) && Reaches(items, spot, Wrapped(finished), coverage, followups, current)
    requires IsAverage(coverage, avg)
    ensures avg == Coverage(spot, finished)
  {
    hide SumOver, Ids, Distinct, Reaches, Tracks, FullyCovered, Coverage, HalfIf;
    var n := if finished then |items| else spot.at + 1;
    var c := if finished then 1.0 else HalfIf(spot.used > 0);
    WrapKeys(items, spot, finished, coverage, followups, current);
    IdsAre(items, n);
    WrapValues(items, spot, finished, coverage, followups, current);
    SumCovered(items, coverage, n, c);
    assert coverage.Keys != {};
    AverageIs(avg, n, spot, finished);
  }

  lemma AverageIs(avg: real, n: nat, spot: Spot, finished: bool)
    requires n > 0 && (!finished ==> n == spot.at + 1)
    requires avg * n as real == (n - 1) as real + if finished then 1.0 else HalfIf(spot.used > 0)
    ensures avg == Coverage(spot, finished)
  {
    hide HalfIf;
    var half := HalfIf(spot.used > 0);
    if finished {
      FullAverage(avg, n as real, (n - 1) as real + 1.0);
    } else {
      Quotient(avg, n as real, (n - 1) as real + half);
      assert (n - 1) as real == spot.at as real && n as real == (spot.at + 1) as real;
    }
  }

  lemma FullAverage(avg: real, k: real, sum: real)
    requires k > 0.0 && avg * k == sum && sum == k
    ensures avg == 1.0
  {
    Quotient(avg, k, k);
    Quotient(1.0, k, k);
  }

  lemma Quotient(x: real, k: real, y: real)
    requires k > 0.0 && x * k == y
    ensures x == y / k
  {
  }

  lemma WrapKeys(items: seq<Item>, spot: Spot, finished: bool, coverage: map<nat, real>, followups: map<nat, int>,
                 current: Option<nat>)
    requires IsGuide(items) && OnGuide(items, spot) && Reaches(items, spot, Wrapped(finished), coverage, followups, current)
    ensures coverage.Keys == Ids(items, if finished then |items| else spot.at + 1)
  {
    hide Ids;
    IdsAre(items, if finished then |items| else spot.at + 1);
    if finished {
      assert forall k | k in coverage :: InGuide(items, k);
    }
  }

  lemma WrapValues(items: seq<Item>, spot: Spot, finished: bool, coverage: map<nat, real>, followups: map<nat, int>,
                   current: Option<nat>)
    requires IsGuide(items) && OnGuide(items, spot) && Reaches(items, spot, Wrapped(finished), coverage, followups, current)
    ensures var n := if finished then |items| else spot.at + 1;
            var c := if finished then 1.0 else HalfIf(spot.used > 0);
            forall j | 0 <= j < n :: items[j].id in coverage && coverage[items[j].id] == if j == n - 1 then c else 1.0
  {
  }

  function SpokenText(said: Action, prose: string, w: Wording): string {
    if said.text != "" then said.text else if prose != "" then prose else w.fallback
  }

  /** The action's own text comes first, the prose around it only without one, and the fallback without either. */
  predicate Speaks(spoken: string, text: string, prose: string, fallback: string) {
    && (text != "" ==> spoken == text) && (text == "" && prose != "" ==> spoken == prose)
    && (text == "" && prose == "" ==> spoken == fallback)
  }

  function TurnEvents(order: nat, text: string, said: Action, prose: string, w: Wording): seq<Event> {
    [TurnRecorded(order, Respondent, text, None), TurnRecorded(order + 1, Interviewer, SpokenText(said, prose, w), said.item)]
  }

  /** Handles one reply: two recorded turns, numbered on from the history; the new memory; and, when it wraps up, the
      completion with the average coverage. On an interview that is at a spot of a guide, all of it is the machine's. */
  method OnReply(m: Memory, r: Reply, items: seq<Item>, w: Wording, ghost spot: Spot)
    returns (events: seq<Event>, next: Memory, said: Action)
    ensures var turns := TurnEvents(|m.history| + 1, r.text, said, r.prose, w);
            if said.kind.WrapUp? then |events| == 3 && events[..2]
                == turns && events[2].InterviewCompleted? && events[2].duration == r.seconds
            else events == turns
    ensures next.history == m.history + [Turn(Respondent, r.text), Turn(Interviewer, events[1].text)]
    ensures events[0] == TurnRecorded(|m.history| + 1, Respondent, r.text, None)
    ensures events[1] == TurnRecorded(|m.history| + 2, Interviewer, events[1].text, said.item)
    ensures Speaks(events[1].text, said.text, r.prose, w.fallback)
    ensures IsGuide(items) && Remembers(items, m, spot) ==>
              && said == Said(items, spot, r.stop, r.action, w)
              && var o := Next(items, spot, r.stop, r.action);
                 && Reaches(items, spot, o, next.coverage, next.followups, next.current)
                 && var turns := TurnEvents(|m.history| + 1, r.text, said, r.prose, w);
                    && (!o.Wrapped? ==> Remembers(items, next, o.spot) && events == turns)
                    && (o.Wrapped? ==> events == turns + [InterviewCompleted(r.seconds, Coverage(spot, o.finished))])
  {
    hide Tracks, FullyCovered, Sensible, SetDefault, FloatMap, IntMap, CurrentId;
    var history := m.history + [Turn(Respondent, r.text)];
    var coverage, followups, current;
    said, coverage, followups, current := Normalize(r.action, m, items, w, r.stop, spot);
    events := [TurnRecorded(|m.history| + 1, Respondent, r.text, None)];
    var text := if said.text != "" then said.text else if r.prose != "" then r.prose else w.fallback;
    history := history + [Turn(Interviewer, text)];
    events := events + [TurnRecorded(|m.history| + 2, Interviewer, text, said.item)];
    next := Memory(coverage, followups, current, history);
    assert IsGuide(items) && Remembers(items, m, spot) ==>
        IsNext(items, spot, r.stop, r.action, w, said, coverage, followups, current);
    if said.kind.WrapUp? {
      var avg := AvgCoverage(coverage);
      if IsGuide(items) && Remembers(items, m, spot) {
        WrapCoverage(items, spot, !r.stop, coverage, followups, current, avg);
      }
      events := events + [InterviewCompleted(r.seconds, avg)];
    }
  }

  // ---------------------------------------------------------------- whole runs

  /** The outcomes of the replies, up to and including the first wrap-up. */
  function Journey(items: seq<Item>, spot: Spot, replies: seq<Reply>): (os: seq<Outcome>)
    requires OnGuide(items, spot)
    ensures |os| <= |replies|
    decreases |replies|
  {
    if replies == [] then []
    else
      var o := Next(items, spot, replies[0].stop, replies[0].action);
      if o.Wrapped? then [o] else [o] + Journey(items, o.spot, replies[1..])
  }

  predicate HasWrapped(os: seq<Outcome>) { os != [] && os[|os| - 1].Wrapped? }

  /** What is left to do: the items not yet left, and the follow-ups not yet used. */
  function Budget(items: seq<Item>): nat {
    if items == [] then 0 else 1 + items[0].maxFollowups + Budget(items[1..])
  }

  function Measure(items: seq<Item>, spot: Spot): nat
    requires OnGuide(items, spot)
  {
    assert items[spot.at..][0] == items[spot.at];
    Budget(items[spot.at..]) - spot.used
  }

  lemma BudgetFrom(items: seq<Item>, k: nat)
    requires k < |items|
    ensures Budget(items[k..]) == 1 + items[k].maxFollowups + Budget(items[k + 1..])
  {
    assert items[k..][1..] == items[k + 1..];
  }

  lemma MeasureDrops(items: seq<Item>, spot: Spot, stop: bool, a: Action)
    requires OnGuide(items, spot) && !Next(items, spot, stop, a).Wrapped?
    ensures Measure(items, Next(items, spot, stop, a).spot) < Measure(items, spot)
  {
    BudgetFrom(items, spot.at);
    if spot.at + 1 < |items| {
      BudgetFrom(items, spot.at + 1);
    }
  }

  /** Termination: whatever the model proposes and whatever the respondent says, the interview wraps up within as
      many replies as there are items and permitted follow-ups left. */
  lemma {:induction false} WrapsUpWithinBudget(items: seq<Item>, spot: Spot, replies: seq<Reply>)
    requires OnGuide(items, spot)
    ensures |Journey(items, spot, replies)| <= Measure(items, spot)
    ensures |replies| >= Measure(items, spot) ==> HasWrapped(Journey(items, spot, replies))
    decreases |replies|
  {
    BudgetFrom(items, spot.at);
    if replies != [] {
      var o := Next(items, spot, replies[0].stop, replies[0].action);
      if !o.Wrapped? {
        MeasureDrops(items, spot, replies[0].stop, replies[0].action);
        WrapsUpWithinBudget(items, o.spot, replies[1..]);
      }
    }
  }

  predicate Clings(r: Reply) { !r.stop && r.action.kind.Probe? && r.action.item.None? }

  /** The bound is exact: a model that always probes uses all of it. */
  lemma {:induction false} BoundIsAttained(items: seq<Item>, spot: Spot, replies: seq<Reply>)
    requires OnGuide(items, spot) && |replies| >= Measure(items, spot) && forall r | r in replies :: Clings(r)
    ensures |Journey(items, spot, replies)| == Measure(items, spot)
    decreases |replies|
  {
    BudgetFrom(items, spot.at);
    assert replies[0] in replies;
    var o := Next(items, spot, replies[0].stop, replies[0].action);
    if o.Probed? {
      BoundIsAttained(items, o.spot, replies[1..]);
    } else if o.MovedOn? {
      BudgetFrom(items, o.spot.at);
      BoundIsAttained(items, o.spot, replies[1..]);
    }
  }

  /** The spot a reply finds the interview at. */
  function SpotAt(start: Spot, os: seq<Outcome>, k: nat): Spot
    requires k <= |os| && forall j | 0 <= j < k :: !os[j].Wrapped?
  {
    if k == 0 then start else os[k - 1].spot
  }

  /** No question is skipped, repeated or returned to: each outcome stays at its item and uses one more of its
      follow-ups, or goes to the very next item; the interview finishes only from the last one; and only the last
      outcome wraps up. */
  lemma {:induction false} OneStepAtATime(items: seq<Item>, spot: Spot, replies: seq<Reply>, k: nat)
    requires OnGuide(items, spot) && k < |Journey(items, spot, replies)|
    ensures var os := Journey(items, spot, replies);
            && (forall j | 0 <= j < k :: !os[j].Wrapped?)
            && var here := SpotAt(spot, os, k);
               && OnGuide(items, here)
               && os[k] == Next(items, here, replies[k].stop, replies[k].action)
               && (os[k].Probed? ==> os[k].spot == Spot(here.at, here.used + 1) && here.used < items[here.at].maxFollowups)
               && (os[k].MovedOn? ==> os[k].spot == Spot(here.at + 1, 0))
               && (os[k].Wrapped? ==> k == |os| - 1 && os[k].finished == !replies[k].stop)
               && (os[k] == Wrapped(true) ==> here.at == |items| - 1)
    decreases k
  {
    var os := Journey(items, spot, replies);
    var o := Next(items, spot, replies[0].stop, replies[0].action);
    if k > 0 {
      OneStepAtATime(items, o.spot, replies[1..], k - 1);
      var rest := Journey(items, o.spot, replies[1..]);
      assert forall j | 0 < j < |os| :: os[j] == rest[j - 1];
      assert SpotAt(spot, os, k) == SpotAt(o.spot, rest, k - 1);
    }
  }

  /** The probes an item has had. */
  function ProbesOn(os: seq<Outcome>, at: nat): nat {
    if os == [] then 0 else (if os[0].Probed? && os[0].spot.at == at then 1 else 0) + ProbesOn(os[1..], at)
  }

  /** No item is probed more often than its guide allows. */
  lemma {:induction false} FollowupsAreBounded(items: seq<Item>, spot: Spot, replies: seq<Reply>, at: nat)
    requires OnGuide(items, spot)
    ensures var probes := ProbesOn(Journey(items, spot, replies), at);
            && (at < spot.at || at >= |items| ==> probes == 0)
            && (at == spot.at ==> probes <= items[at].maxFollowups - spot.used)
            && (spot.at < at < |items| ==> probes <= items[at].maxFollowups)
    decreases |replies|
  {
    if replies != [] {
      var o := Next(items, spot, replies[0].stop, replies[0].action);
      if !o.Wrapped? {
        FollowupsAreBounded(items, o.spot, replies[1..], at);
        assert Journey(items, spot, replies)[1..] == Journey(items, o.spot, replies[1..]);
      }
    }
  }

  // ---------------------------------------------------------------- what is recorded

  /** The guide items the interviewer's recorded turns refer to. */
  function Referred(items: seq<Item>, spot: Spot, replies: seq<Reply>, w: Wording): set<nat>
    requires OnGuide(items, spot)
    decreases |replies|
  {
    if replies == [] then {}
    else
      var r := replies[0];
      var o, said := Next(items, spot, r.stop, r.action), Said(items, spot, r.stop, r.action, w);
      (if said.item.Some? then {said.item.value} else {}) + if o.Wrapped? then {} else Referred(items, o.spot, replies[1..], w)
  }

  /** Counting the opening item, a finished interview has referred to every item of its guide, and one the
      respondent stopped to exactly the items up to the one it was at. */
  lemma {:induction false} ReferredItems(items: seq<Item>, spot: Spot, replies: seq<Reply>, w: Wording)
    requires IsGuide(items) && OnGuide(items, spot) && HasWrapped(Journey(items, spot, replies))
    ensures var os := Journey(items, spot, replies);
            && (forall j | 0 <= j < |os| - 1 :: !os[j].Wrapped?)
            && var last := SpotAt(spot, os, |os| - 1);
               && spot.at <= last.at < |items|
               && forall j | spot.at <= j < |items| ::
                    items[j].id in Referred(items, spot, replies, w) + {items[spot.at].id}
                    <==> os[|os| - 1].finished || j <= last.at
    decreases |replies|
  {
    var os := Journey(items, spot, replies);
    var r := replies[0];
    var o, said := Next(items, spot, r.stop, r.action), Said(items, spot, r.stop, r.action, w);
    if o.Wrapped? {
      forall j | spot.at <= j < |items| && !o.finished && j > spot.at ensures items[j].id != items[spot.at].id {
      }
    } else {
      ReferredItems(items, o.spot, replies[1..], w);
      var rest := Journey(items, o.spot, replies[1..]);
      assert os == [o] + rest;
      assert SpotAt(spot, os, |os| - 1) == SpotAt(o.spot, rest, |rest| - 1);
      assert said.item == Some(items[o.spot.at].id);
      forall j | spot.at < j < |items| ensures items[j].id != items[spot.at].id {
      }
    }
  }

  /** The coverage an item has at a spot. */
  function CoverageAt(spot: Spot, j: nat): real {
    if j < spot.at then 1.0 else if j == spot.at then HalfIf(spot.used > 0) else 0.0
  }

  lemma MapHoldsCoverage(items: seq<Item>, coverage: map<nat, real>, followups: map<nat, int>, spot: Spot, j: nat)
    requires Distinct(items) && Tracks(items, coverage, followups, spot) && j < |items|
    ensures Get(coverage, items[j].id, 0.0) == CoverageAt(spot, j)
    ensures CoverageAt(spot, j) == if j < spot.at then 1.0 else if j == spot.at && spot.used > 0 then 0.5 else 0.0
  {
    if j > spot.at {
      TracksLater(items, coverage, followups, spot, j);
    }
  }

  /** No item's coverage ever decreases, and everything before the current item is fully covered. */
  lemma CoverageNeverFalls(items: seq<Item>, spot: Spot, replies: seq<Reply>, k: nat, l: nat, j: nat)
    requires OnGuide(items, spot) && k <= l < |Journey(items, spot, replies)|
    ensures var os := Journey(items, spot, replies);
            && (forall x | 0 <= x < l :: !os[x].Wrapped?)
            && CoverageAt(SpotAt(spot, os, k), j) <= CoverageAt(SpotAt(spot, os, l), j) <= 1.0
    decreases l
  {
    OneStepAtATime(items, spot, replies, l);
    if k < l {
      CoverageNeverFalls(items, spot, replies, k, l - 1, j);
      OneStepAtATime(items, spot, replies, l - 1);
    }
  }

  /** The reported coverage is full exactly when the respondent did not stop the interview. A stopped interview
      reports the average over the items it touched, not over the guide. */
  lemma FullIffFinished(spot: Spot, finished: bool)
    ensures Coverage(spot, finished) == 1.0 <==> finished
    ensures 0.0 <= Coverage(spot, finished) <= 1.0
  {
    var n := (spot.at + 1) as real;
    var x := spot.at as real + HalfIf(spot.used > 0);
    if !finished {
      assert x < n;
      Quotient(x / n, n, x);
      FractionBelowOne(x, n);
    }
  }

  lemma FractionBelowOne(x: real, n: real)
    requires 0.0 <= x < n
    ensures 0.0 <= x / n < 1.0
  {
  }

  /** Everything a run of replies records. */
  function RunEvents(items: seq<Item>, spot: Spot, replies: seq<Reply>, order: nat, w: Wording): seq<Event>
    requires OnGuide(items, spot)
    decreases |replies|
  {
    if replies == [] then []
    else
      var r := replies[0];
      var o := Next(items, spot, r.stop, r.action);
      TurnEvents(order, r.text, Said(items, spot, r.stop, r.action, w), r.prose, w)
      + if o.Wrapped? then [InterviewCompleted(r.seconds, Coverage(spot, o.finished))]
          else RunEvents(items, o.spot, replies[1..], order + 2, w)
  }

  lemma RunContinues(items: seq<Item>, spot: Spot, replies: seq<Reply>, order: nat, w: Wording)
    requires OnGuide(items, spot) && replies != []
    ensures var o := Next(items, spot, replies[0].stop, replies[0].action);
            var turns := TurnEvents(order, replies[0].text, Said(items, spot, replies[0].stop, replies[0].action, w),
                                    replies[0].prose, w);
            && RunEvents(items, spot, replies, order, w)
               == turns + (if o.Wrapped? then [InterviewCompleted(replies[0].seconds, Coverage(spot, o.finished))]
                           else RunEvents(items, o.spot, replies[1..], order + 2, w))
            && HasWrapped(Journey(items, spot, replies)) == (o.Wrapped? || HasWrapped(Journey(items, o.spot, replies[1..])))
  {
  }

  /** A whole interview from a fresh memory: replies are handled until the first wrap-up. */
  method Conduct(items: seq<Item>, replies: seq<Reply>, w: Wording) returns (events: seq<Event>, wrapped: bool)
    requires IsGuide(items)
    ensures events == RunEvents(items, Spot(0, 0), replies, 1, w)
    ensures wrapped == HasWrapped(Journey(items, Spot(0, 0), replies))
  {
    hide RunEvents, Journey, HasWrapped, Next, Said, Reaches, Tracks;
    var m := FRESH_MEMORY;
    ghost var spot := Spot(0, 0);
    FreshIsFirst(items);
    events, wrapped := [], false;
    for i := 0 to |replies|
      invariant OnGuide(items, spot) && Remembers(items, m, spot) && !wrapped && |m.history| == 2 * i
      invariant events + RunEvents(items, spot, replies[i..], 2 * i + 1, w) == RunEvents(items, Spot(0, 0), replies, 1, w)
      invariant HasWrapped(Journey(items, spot, replies[i..])) == HasWrapped(Journey(items, Spot(0, 0), replies))
    {
      var r := replies[i];
      var more, next, said := OnReply(m, r, items, w, spot);
      ghost var o := Next(items, spot, r.stop, r.action);
      assert replies[i..][0] == r && replies[i..][1..] == replies[i + 1..];
      RunContinues(items, spot, replies[i..], 2 * i + 1, w);
      Regroup(events, TurnEvents(2 * i + 1, r.text, said, r.prose, w), if o.Wrapped? then []
          else RunEvents(items, o.spot, replies[i + 1..], 2 * i + 3, w));
      events, m := events + more, next;
      SaysWrapUp(items, spot, r.stop, r.action, w);
      if said.kind.WrapUp? {
        wrapped := true;
        return;
      }
      spot := o.spot;
    }
    assert replies[|replies|..] == [];
    NoReplies(items, spot, 2 * |replies| + 1, w);
  }

  lemma FreshIsFirst(items: seq<Item>)
    requires IsGuide(items)
    ensures Remembers(items, FRESH_MEMORY, Spot(0, 0)) && OnGuide(items, Spot(0, 0))
  {
  }

  lemma NoReplies(items: seq<Item>, spot: Spot, order: nat, w: Wording)
    requires OnGuide(items, spot)
    ensures RunEvents(items, spot, [], order, w) == [] && !HasWrapped(Journey(items, spot, []))
  {
  }

  lemma SaysWrapUp(items: seq<Item>, spot: Spot, stop: bool, a: Action, w: Wording)
    requires OnGuide(items, spot)
    ensures Said(items, spot, stop, a, w).kind.WrapUp? <==> Next(items, spot, stop, a).Wrapped?
  {
  }

  lemma Regroup(a: seq<Event>, b: seq<Event>, c: seq<Event>)
    ensures a + (b + c) == (a + b) + c
  {
  }

  lemma TwoTurns(order: nat, text: string, said: Action, prose: string, w: Wording)
    ensures var es := TurnEvents(order, text, said, prose, w);
            && |es| == 2 && es[0].TurnRecorded? && es[0].order == order && es[0].role.Respondent?
            && es[1].TurnRecorded? && es[1].order == order + 1 && es[1].role.Interviewer?
  {
  }

  /** The recorded turns of an interview are numbered 1, 2, 3 and so on; only the last event can be the completion. */
  lemma {:induction false} TurnsAreNumbered(items: seq<Item>, spot: Spot, replies: seq<Reply>, order: nat, w: Wording,
                                            k: nat)
    requires OnGuide(items, spot) && k < |RunEvents(items, spot, replies, order, w)|
    ensures var e := RunEvents(items, spot, replies, order, w)[k];
            if e.TurnRecorded? then e.order == order + k && (e.role == if k % 2 == 0 then Respondent else Interviewer)
            else k == |RunEvents(items, spot, replies, order, w)| - 1 && HasWrapped(Journey(items, spot, replies))
    decreases |replies|
  {
    hide Said, HasWrapped, Coverage, OnGuide, SpokenText;
    if replies == [] {
      NoReplies(items, spot, order, w);
    }
    hide RunEvents, Journey, Next, TurnEvents;
    var r := replies[0];
    var o := Next(items, spot, r.stop, r.action);
    RunContinues(items, spot, replies, order, w);
    TwoTurns(order, r.text, Said(items, spot, r.stop, r.action, w), r.prose, w);
    if k >= 2 && !o.Wrapped? {
      TurnsAreNumbered(items, o.spot, replies[1..], order + 2, w, k - 2);
    }
  }
}
