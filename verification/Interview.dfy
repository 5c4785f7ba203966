/** One interview: a guide, a model that proposes any action it likes, and a moderator that makes it progress.

    `Next` is the moderator reduced to a position in the guide and the follow-ups used there. `Normalize` is the
    moderator as it works, on its coverage and follow-up maps; it is proved to be that small machine, and what is
    promised about interviews is proved of the machine. Identifiers are canonical; an action's unknown or absent
    item id is just one that no item has. Whether a text asks to stop is decided elsewhere (`stop`). */
module Interview {
  import opened Wrappers

  datatype Item = Item(id: nat, question: string, maxFollowups: nat)

  datatype Kind = Ask | Probe | AcknowledgeAndMove | WrapUp

  datatype Action = Action(kind: Kind, item: Option<nat>, text: string)

  datatype Role = Respondent | Interviewer

  datatype Turn = Turn(role: Role, text: string)

  datatype Reply = Reply(text: string, stop: bool, action: Action, prose: string, seconds: int)

  datatype Wording = Wording(wrapUp: string, fallback: string)

  /** What the memory scope of one interview holds. */
  datatype Memory = Memory(coverage: map<nat, real>, followups: map<nat, int>, current: Option<nat>, history: seq<Turn>)

  datatype Event =
    | TurnRecorded(order: nat, role: Role, text: string, item: Option<nat>)
    | InterviewCompleted(duration: int, coverage: real)

  const FRESH_MEMORY := Memory(map[], map[], None, [])

  // ---------------------------------------------------------------- the machine

  /** Where an interview stands: at an item, with this many follow-ups used on it. */
  datatype Spot = Spot(at: nat, used: nat)

  datatype Outcome = Probed(spot: Spot) | MovedOn(spot: Spot) | Wrapped(finished: bool)

  predicate Distinct(items: seq<Item>) {
    forall j, k | 0 <= j < k < |items| :: items[j].id != items[k].id
  }

  predicate IsGuide(items: seq<Item>) { items != [] && Distinct(items) }

  predicate InGuide(items: seq<Item>, id: nat) { exists j :: 0 <= j < |items| && items[j].id == id }

  predicate OnGuide(items: seq<Item>, spot: Spot) { spot.at < |items| && spot.used <= items[spot.at].maxFollowups }

  /** The model wants to leave the current item: it wraps up or names another one. */
  predicate WantsAway(items: seq<Item>, spot: Spot, a: Action)
    requires spot.at < |items|
  {
    a.kind.WrapUp? || (a.item.Some? && InGuide(items, a.item.value) && a.item.value != items[spot.at].id)
  }

  function Next(items: seq<Item>, spot: Spot, stop: bool, a: Action): (o: Outcome)
    requires OnGuide(items, spot)
    ensures !o.Wrapped? ==> OnGuide(items, o.spot)
  {
    if stop then Wrapped(false)
    else if WantsAway(items, spot, a) || spot.used == items[spot.at].maxFollowups then
      if spot.at + 1 < |items| then MovedOn(Spot(spot.at + 1, 0)) else Wrapped(true)
    else Probed(Spot(spot.at, spot.used + 1))
  }

  /** What the respondent is told. */
  function Said(items: seq<Item>, spot: Spot, stop: bool, a: Action, w: Wording): Action
    requires OnGuide(items, spot)
  {
    match Next(items, spot, stop, a)
    case Probed(_) => a.(kind := Probe, item := Some(items[spot.at].id))
    case MovedOn(to) =>
      var next := items[to.at];
      Action(AcknowledgeAndMove, Some(next.id), if !a.kind.WrapUp? && a.item == Some(next.id) then a.text else next.question)
    case Wrapped(finished) =>
      if finished && a.kind.WrapUp? then a else Action(WrapUp, None, w.wrapUp)
  }

  // ---------------------------------------------------------------- the maps

  /** The maps of a memory record this spot: everything before it covered, nothing behind it touched. */
  ghost predicate Tracks(items: seq<Item>, coverage: map<nat, real>, followups: map<nat, int>, spot: Spot) {
    && OnGuide(items, spot)
    && (forall j | 0 <= j < spot.at :: items[j].id in coverage && coverage[items[j].id] == 1.0)
    && (forall k | k in coverage :: exists j :: 0 <= j <= spot.at && items[j].id == k)
    && (forall k | k in followups :: followups[k] >= 0 && exists j :: 0 <= j <= spot.at && items[j].id == k)
    && var id := items[spot.at].id;
       && (id in coverage ==> coverage[id] == HalfIf(spot.used > 0))
       && (if id in followups then followups[id] == spot.used && id in coverage else spot.used == 0)
  }

  function HalfIf(b: bool): real { if b then 0.5 else 0.0 }

  /** The memory of an interview that is at this spot; a fresh one is at the first item. */
  ghost predicate Remembers(items: seq<Item>, m: Memory, spot: Spot) {
    && Tracks(items, m.coverage, m.followups, spot)
    && (m.current == Some(items[spot.at].id) || (m.current.None? && spot == Spot(0, 0)))
  }

  /** Every item of the guide is fully covered, and nothing else is recorded. */
  ghost predicate FullyCovered(items: seq<Item>, coverage: map<nat, real>) {
    && (forall j | 0 <= j < |items| :: items[j].id in coverage)
    && (forall k | k in coverage :: coverage[k] == 1.0 && InGuide(items, k))
  }

  function Clamp(x: real): real { if x < 0.0 then 0.0 else if x > 1.0 then 1.0 else x }

  function FloatMap(m: map<nat, real>): map<nat, real> { map k | k in m :: Clamp(m[k]) }

  function IntMap(m: map<nat, int>): map<nat, int> { map k | k in m :: if m[k] < 0 then 0 else m[k] }

  function Get<V>(m: map<nat, V>, k: nat, default_: V): V { if k in m then m[k] else default_ }

  function SetDefault<V>(m: map<nat, V>, k: nat, default_: V): map<nat, V> { if k in m then m else m[k := default_] }

  /** The position of an id, or the length if no item has it. */
  function Position(items: seq<Item>, id: nat): (k: nat)
    ensures k <= |items| && (k < |items| <==> InGuide(items, id))
    ensures k < |items| ==> items[k].id == id && forall j | 0 <= j < k :: items[j].id != id
    decreases |items|
  {
    if items == [] then 0
    else if items[0].id == id then 0
    else
      var k := Position(items[1..], id);
      assert InGuide(items[1..], id) <==> InGuide(items, id) by {
        if InGuide(items, id) {
          var j :| 0 <= j < |items| && items[j].id == id;
          assert items[1..][j - 1].id == id;
        }
        if InGuide(items[1..], id) {
          var j :| 0 <= j < |items[1..]| && items[1..][j].id == id;
          assert items[j + 1].id == id;
        }
      }
      k + 1
  }

  /** The first position from `from` on, below `to`, that is not fully covered; `to` if there is none. */
  function FirstUncovered(items: seq<Item>, coverage: map<nat, real>, lo: nat, hi: nat): (k: nat)
    requires lo <= hi <= |items|
    ensures lo <= k <= hi
    ensures forall j | lo <= j < k :: Get(coverage, items[j].id, 0.0) >= 1.0
    ensures k < hi ==> Get(coverage, items[k].id, 0.0) < 1.0
    decreases |items| - lo
  {
    if lo == hi || Get(coverage, items[lo].id, 0.0) < 1.0 then lo else FirstUncovered(items, coverage, lo + 1, hi)
  }

  /** Where the search for the next item begins: behind the current one, or at the start if there is none. */
  function SearchStart(items: seq<Item>, current: Option<nat>): (k: nat)
    ensures k <= |items|
  {
    var p := if current.Some? then Position(items, current.value) else |items|;
    if p < |items| then p + 1 else 0
  }

  predicate Open(items: seq<Item>, coverage: map<nat, real>, j: nat)
    requires j < |items|
  {
    Get(coverage, items[j].id, 0.0) < 1.0
  }

  predicate IsFirstOpen(items: seq<Item>, current: Option<nat>, coverage: map<nat, real>, onlyAfter: bool, k: nat)
    requires k < |items|
  {
    var start := SearchStart(items, current);
    && Open(items, coverage, k)
    && if k >= start then forall j | start <= j < k :: !Open(items, coverage, j)
       else !onlyAfter && (forall j | start <= j < |items| :: !Open(items, coverage, j)) && forall j | 0 <= j < k ::
           !Open(items, coverage, j)
  }

  /** The next item to ask: the first open one behind the current item, then - unless told otherwise - the first
      open one of the guide. */
  function NextUncovered(items: seq<Item>, current: Option<nat>, coverage: map<nat, real>,
                         onlyAfter: bool): (r: Option<nat>)
    ensures r.Some? ==> InGuide(items, r.value)
  {
    var start := SearchStart(items, current);
    var k := FirstUncovered(items, coverage, start, |items|);
    if k < |items| then Some(items[k].id)
    else if onlyAfter then None
    else
      var k' := FirstUncovered(items, coverage, 0, start);
      if k' < start then Some(items[k'].id) else None
  }

  /** There is no next item exactly when the searched part has no open one, and otherwise it is the first. */
  lemma NextIsFirstOpen(items: seq<Item>, current: Option<nat>, coverage: map<nat, real>, onlyAfter: bool)
    ensures var r := NextUncovered(items, current, coverage, onlyAfter);
            && (r.None? <==> forall j | (if onlyAfter then SearchStart(items, current) else 0) <= j < |items| ::
                   !Open(items, coverage, j))
            && (r.Some? ==> exists k :: 0 <= k < |items| && items[k].id == r.value
                                        && IsFirstOpen(items, current, coverage, onlyAfter, k))
  {
    var start := SearchStart(items, current);
    var k := FirstUncovered(items, coverage, start, |items|);
    if k < |items| {
      assert Open(items, coverage, k) && IsFirstOpen(items, current, coverage, onlyAfter, k);
    } else if !onlyAfter {
      var k' := FirstUncovered(items, coverage, 0, start);
      if k' < start {
        assert Open(items, coverage, k') && IsFirstOpen(items, current, coverage, onlyAfter, k');
      }
    }
  }

  /** The item an id stands for: the last one, should several carry it. */
  function ItemWith(items: seq<Item>, id: nat): (item: Item)
    requires InGuide(items, id)
    ensures item in items && item.id == id
  {
    var n := |items| - 1;
    if items[n].id == id then items[n]
    else
      assert InGuide(items[..n], id) by {
        var j :| 0 <= j < |items| && items[j].id == id;
        assert items[..n][j].id == id;
      }
      ItemWith(items[..n], id)
  }

  function MoveToItem(item: Item): Action { Action(AcknowledgeAndMove, Some(item.id), item.question) }

  /** At a tracked spot whose item has just been covered, the next uncovered item is the next one. */
  lemma NextIsNext(items: seq<Item>, coverage: map<nat, real>, at: nat, onlyAfter: bool)
    requires Distinct(items) && at < |items|
    requires forall j | 0 <= j <= at :: items[j].id in coverage && coverage[items[j].id] == 1.0
    requires forall j | at < j < |items| :: items[j].id !in coverage
    ensures NextUncovered(items, Some(items[at].id), coverage, onlyAfter)
                == if at + 1 < |items| then Some(items[at + 1].id) else None
  {
    assert InGuide(items, items[at].id);
    assert Position(items, items[at].id) == at;
  }

  lemma TracksLater(items: seq<Item>, coverage: map<nat, real>, followups: map<nat, int>, spot: Spot, j: nat)
    requires Distinct(items) && Tracks(items, coverage, followups, spot) && spot.at < j < |items|
    ensures items[j].id !in coverage && items[j].id !in followups
  {
  }

  lemma TracksClamped(items: seq<Item>, coverage: map<nat, real>, followups: map<nat, int>, spot: Spot)
    requires Distinct(items) && Tracks(items, coverage, followups, spot)
    ensures FloatMap(coverage) == coverage && IntMap(followups) == followups
  {
    forall k | k in coverage ensures Clamp(coverage[k]) == coverage[k] {
      var j :| 0 <= j <= spot.at && items[j].id == k;
    }
  }

  // ---------------------------------------------------------------- the moderator

  /** The state the maps are in after an outcome. */
  ghost predicate Reaches(items: seq<Item>, spot: Spot, o: Outcome, coverage: map<nat, real>, followups: map<nat, int>,
                          current: Option<nat>) {
    match o
    case Probed(to) => Tracks(items, coverage, followups, to) && to.at < |items| && current == Some(items[to.at].id)
    case MovedOn(to) => Tracks(items, coverage, followups, to) && to.at < |items| && current == Some(items[to.at].id)
    case Wrapped(finished) =>
      && spot.at < |items| && current == Some(items[spot.at].id)
      && (if finished then FullyCovered(items, coverage)
          else Tracks(items, coverage, followups, spot) && items[spot.at].id in coverage)
  }

  lemma CoverCurrent(items: seq<Item>, coverage: map<nat, real>, followups: map<nat, int>, spot: Spot, onlyAfter: bool)
    requires Distinct(items) && Tracks(items, coverage, followups, spot)
    ensures var full := coverage[items[spot.at].id := 1.0];
            if spot.at + 1 < |items| then
              && NextUncovered(items, Some(items[spot.at].id), full, onlyAfter) == Some(items[spot.at + 1].id)
              && Tracks(items, full, followups, Spot(spot.at + 1, 0))
            else NextUncovered(items, Some(items[spot.at].id), full, onlyAfter) == None && FullyCovered(items, full)
  {
    var at := spot.at;
    var full := coverage[items[at].id := 1.0];
    forall j | at < j < |items| ensures items[j].id !in full && items[j].id !in followups {
      TracksLater(items, coverage, followups, spot, j);
    }
    NextIsNext(items, full, at, onlyAfter);
    forall k | k in full ensures exists j :: 0 <= j <= at && items[j].id == k {
      assert items[at].id == k || k in coverage;
    }
    if at + 1 == |items| {
      forall k | k in full ensures full[k] == 1.0 && InGuide(items, k) {
        var j :| 0 <= j <= at && items[j].id == k;
      }
    }
  }

  lemma SetDefaultsTrack(items: seq<Item>, coverage: map<nat, real>, followups: map<nat, int>, spot: Spot)
    requires Distinct(items) && Tracks(items, coverage, followups, spot)
    ensures var id := items[spot.at].id; Tracks(items, SetDefault(coverage, id, 0.0), SetDefault(followups, id, 0), spot)
  {
    var id := items[spot.at].id;
    var c, f := SetDefault(coverage, id, 0.0), SetDefault(followups, id, 0);
    forall k | k in c ensures exists j :: 0 <= j <= spot.at && items[j].id == k {
      assert k in coverage || items[spot.at].id == k;
    }
    forall k | k in f ensures f[k] >= 0 && exists j :: 0 <= j <= spot.at && items[j].id == k {
      assert k in followups || items[spot.at].id == k;
    }
  }

  lemma ProbeTracks(items: seq<Item>, coverage: map<nat, real>, followups: map<nat, int>, spot: Spot)
    requires Distinct(items) && Tracks(items, coverage, followups, spot) && spot.used < items[spot.at].maxFollowups
    requires items[spot.at].id in coverage && items[spot.at].id in followups
    ensures var id := items[spot.at].id;
            Tracks(items, coverage[id := if coverage[id] < 0.5 then 0.5
                else coverage[id]], followups[id := spot.used + 1], Spot(spot.at, spot.used + 1))
  {
  }

  /** The words and the maps are those of the machine. */
  ghost predicate IsNext(items: seq<Item>, spot: Spot, stop: bool, a: Action, w: Wording,
                         said: Action, coverage: map<nat, real>, followups: map<nat, int>, current: Option<nat>) {
    && OnGuide(items, spot) && said == Said(items, spot, stop, a, w)
    && Reaches(items, spot, Next(items, spot, stop, a), coverage, followups, current)
  }

  ghost predicate At(items: seq<Item>, coverage: map<nat, real>, followups: map<nat, int>, spot: Spot, id: nat) {
    Distinct(items) && Tracks(items, coverage, followups, spot) && id == items[spot.at].id && id in coverage && id in followups
  }

  /** The item the moderator takes for the current one: the stored one if the guide has it, else the first. */
  function CurrentId(items: seq<Item>, m: Memory): nat
    requires items != []
  {
    if m.current.Some? && InGuide(items, m.current.value) then m.current.value else items[0].id
  }

  predicate InUnit(coverage: map<nat, real>) { forall k | k in coverage :: 0.0 <= coverage[k] <= 1.0 }

  /** What a step does on any guide and any memory, whether or not the memory tracks a spot: no coverage falls; it
      ends only when no item behind the current one is open - and, if the model wanted to, when none is; it asks an
      item that was open and covers the one it leaves; and it probes only within the current item's limit. */
  ghost predicate Sensible(items: seq<Item>, a: Action, id: nat, coverage0: map<nat, real>, followups0: map<nat, int>,
                           said: Action, coverage: map<nat, real>, followups: map<nat, int>, current: Option<nat>) {
    && InGuide(items, id) && current.Some? && InGuide(items, current.value)
    && InUnit(coverage) && (forall k | k in coverage0 :: k in coverage && coverage0[k] <= coverage[k])
    && (if said.kind.WrapUp? then
          && current == Some(id) && followups == followups0 && coverage == coverage0[id := 1.0]
          && forall j | (if a.kind.WrapUp? then 0 else SearchStart(items, Some(id))) <= j < |items| :: !Open(items, coverage, j)
        else if said.kind.Probe? then
          && said == a.(kind := Probe, item := Some(id)) && current == Some(id)
          && id in followups0 && followups0[id] < ItemWith(items, id).maxFollowups && followups
                 == followups0[id := followups0[id] + 1]
        else
          && said.kind.AcknowledgeAndMove? && said.item == current && Get(coverage0, current.value, 0.0) < 1.0
          && id in coverage && coverage[id] == 1.0)
  }

  lemma EndIsSensible(items: seq<Item>, a: Action, id: nat, coverage: map<nat, real>, followups: map<nat, int>,
                      said: Action)
    requires InGuide(items, id) && id in coverage && InUnit(coverage) && said.kind.WrapUp?
    requires NextUncovered(items, Some(id), coverage[id := 1.0], !a.kind.WrapUp?) == None
    ensures Sensible(items, a, id, coverage, followups, said, coverage[id := 1.0], followups, Some(id))
  {
    hide NextUncovered, ItemWith;
    NextIsFirstOpen(items, Some(id), coverage[id := 1.0], !a.kind.WrapUp?);
  }

  lemma MoveIsSensible(items: seq<Item>, a: Action, id: nat, coverage0: map<nat, real>, followups0: map<nat, int>,
                       said: Action, coverage: map<nat, real>, followups: map<nat, int>, next: nat)
    requires InGuide(items, id) && InGuide(items, next) && id in coverage0 && InUnit(coverage0)
    requires Get(coverage0, next, 0.0) < 1.0 && said.kind.AcknowledgeAndMove? && said.item == Some(next)
    requires coverage == coverage0[id := 1.0] || coverage == SetDefault(coverage0[id := 1.0], next, 0.0)
    ensures Sensible(items, a, id, coverage0, followups0, said, coverage, followups, Some(next))
  {
    hide ItemWith, SearchStart;
  }

  /** The next item is open. */
  lemma NextIsOpen(items: seq<Item>, current: Option<nat>, coverage: map<nat, real>, onlyAfter: bool)
    ensures var r := NextUncovered(items, current, coverage, onlyAfter); r.Some? ==> Get(coverage, r.value, 0.0) < 1.0
  {
    hide NextUncovered;
    NextIsFirstOpen(items, current, coverage, onlyAfter);
  }

  /** Covering an item opens none: if the search found nothing before, it finds nothing after. */
  lemma NothingOpens(items: seq<Item>, current: Option<nat>, coverage: map<nat, real>, id: nat)
    requires NextUncovered(items, current, coverage, true) == None
    ensures NextUncovered(items, current, coverage[id := 1.0], true) == None
  {
    hide NextUncovered;
    NextIsFirstOpen(items, current, coverage, true);
    var full := coverage[id := 1.0];
    NextIsFirstOpen(items, current, full, true);
    forall j | SearchStart(items, current) <= j < |items| ensures !Open(items, full, j) {
      assert !Open(items, coverage, j);
    }
  }

  /** Turns whatever the model proposed into a step that makes progress. Without a guide the action stands; on any
      guide and memory the step is a sensible one; and on a memory that tracks a spot, it is the machine's. */
  method Normalize(a: Action, m: Memory, items: seq<Item>, w: Wording, stop: bool, ghost spot: Spot)
    returns (said: Action, coverage: map<nat, real>, followups: map<nat, int>, current: Option<nat>)
    ensures items == [] ==> said == a && coverage == FloatMap(m.coverage) && followups == IntMap(m.followups) && current == None
    ensures items != [] ==>
              var id := CurrentId(items, m);
              var c, f := SetDefault(FloatMap(m.coverage), id, 0.0), SetDefault(IntMap(m.followups), id, 0);
              if stop then said == Action(WrapUp, None, w.wrapUp) && coverage == c && followups == f && current == Some(id)
              else Sensible(items, a, id, c, f, said, coverage, followups, current)
    ensures Distinct(items) && Remembers(items, m, spot) ==> IsNext(items, spot, stop, a, w, said, coverage, followups, current)
  {
    hide IsNext, At, FloatMap, IntMap, SetDefault, Sensible;
    coverage, followups := FloatMap(m.coverage), IntMap(m.followups);
    current := if m.current.Some? && InGuide(items, m.current.value) then m.current else None;
    if current.None? && items != [] {
      current := Some(items[0].id);
    }
    if current.None? {
      assert items == [];
      said := a;
    } else {
      var id := current.value;
      assert InGuide(items, id) by { assert m.current == Some(id) || items[0].id == id; }
      coverage, followups := SetDefault(coverage, id, 0.0), SetDefault(followups, id, 0);
      DefaultsSet(FloatMap(m.coverage), IntMap(m.followups), id);
      DefaultsInUnit(m.coverage, id);
      if Distinct(items) && Remembers(items, m, spot) {
        Settle(items, m, spot, id);
      }
      if stop {
        said := Action(WrapUp, None, w.wrapUp);
        StopIsNext(items, spot, a, w, coverage, followups, id);
      } else {
        said, coverage, followups, current := Proceed(a, coverage, followups, id, items, w, spot);
      }
    }
  }

  lemma DefaultsInUnit(coverage: map<nat, real>, id: nat)
    ensures InUnit(SetDefault(FloatMap(coverage), id, 0.0))
  {
  }

  lemma DefaultsSet(coverage: map<nat, real>, followups: map<nat, int>, id: nat)
    ensures id in SetDefault(coverage, id, 0.0) && id in SetDefault(followups, id, 0)
  {
  }

  lemma StopIsNext(items: seq<Item>, spot: Spot, a: Action, w: Wording, coverage: map<nat, real>,
                   followups: map<nat, int>, id: nat)
    ensures At(items, coverage, followups, spot, id) ==>
              IsNext(items, spot, true, a, w, Action(WrapUp, None, w.wrapUp), coverage, followups, Some(id))
  {
  }

  /** The interview goes on: leave the item if the model wants to or its follow-ups are used up, else probe. */
  method Proceed(a: Action, coverage0: map<nat, real>, followups0: map<nat, int>, id: nat, items: seq<Item>,
                 w: Wording, ghost spot: Spot)
    returns (said: Action, coverage: map<nat, real>, followups: map<nat, int>, current: Option<nat>)
    requires InGuide(items, id) && id in coverage0 && id in followups0 && InUnit(coverage0)
    ensures Sensible(items, a, id, coverage0, followups0, said, coverage, followups, current)
    ensures At(items, coverage0, followups0, spot, id) ==> IsNext(items, spot, false, a, w, said, coverage, followups, current)
  {
    hide At, IsNext, NextUncovered, Position, SetDefault, InGuide, Sensible, ItemWith;
    coverage, followups, current := coverage0, followups0, Some(id);
    var requested := if a.item.Some? && InGuide(items, a.item.value) then a.item else None;
    if a.kind.WrapUp? {
      coverage := coverage[id := 1.0];
      var next := NextUncovered(items, current, coverage, false);
      WrapUpIsNext(items, spot, a, w, coverage0, followups, id);
      NextIsOpen(items, current, coverage, false);
      if next.None? {
        said := a;
        EndIsSensible(items, a, id, coverage0, followups, said);
      } else {
        said, current := MoveToItem(ItemWith(items, next.value)), next;
        OpenBefore(coverage0, id, next.value);
        MoveIsSensible(items, a, id, coverage0, followups0, said, coverage, followups, next.value);
      }
      return;
    }
    var expected := NextUncovered(items, current, coverage, true);
    if requested.Some? && requested.value != id {
      coverage := coverage[id := 1.0];
      OtherItemIsNext(items, spot, a, w, coverage0, followups, id);
      NextIsOpen(items, current, coverage0, true);
      if expected.None? {
        said := Action(WrapUp, None, w.wrapUp);
        NothingOpens(items, current, coverage0, id);
        EndIsSensible(items, a, id, coverage0, followups, said);
      } else {
        said := if requested == expected then a else MoveToItem(ItemWith(items, expected.value));
        said := said.(kind := AcknowledgeAndMove, item := expected);
        coverage, followups := SetDefault(coverage, expected.value, 0.0), SetDefault(followups, expected.value, 0);
        current := expected;
        MoveIsSensible(items, a, id, coverage0, followups0, said, coverage, followups, expected.value);
      }
      return;
    }
    var used := followups[id];
    if used >= ItemWith(items, id).maxFollowups {
      coverage := coverage[id := 1.0];
      var next := NextUncovered(items, current, coverage, true);
      UsedUpIsNext(items, spot, a, w, coverage0, followups, id);
      NextIsOpen(items, current, coverage, true);
      if next.None? {
        said := Action(WrapUp, None, w.wrapUp);
        EndIsSensible(items, a, id, coverage0, followups, said);
      } else {
        OpenBefore(coverage0, id, next.value);
        coverage, followups := SetDefault(coverage, next.value, 0.0), SetDefault(followups, next.value, 0);
        said, current := MoveToItem(ItemWith(items, next.value)), next;
        MoveIsSensible(items, a, id, coverage0, followups0, said, coverage, followups, next.value);
      }
      return;
    }
    ProbeIsNext(items, spot, a, w, coverage, followups, id);
    followups := followups[id := used + 1];
    coverage := coverage[id := if coverage[id] < 0.5 then 0.5 else coverage[id]];
    said := a.(kind := Probe, item := current);
    ProbeIsSensible(items, a, id, coverage0, followups0);
  }

  lemma ProbeIsSensible(items: seq<Item>, a: Action, id: nat, coverage: map<nat, real>, followups: map<nat, int>)
    requires InGuide(items, id) && id in coverage && id in followups && InUnit(coverage)
    requires followups[id] < ItemWith(items, id).maxFollowups
    ensures Sensible(items, a, id, coverage, followups, a.(kind := Probe, item := Some(id)),
                     coverage[id := if coverage[id] < 0.5 then 0.5
                         else coverage[id]], followups[id := followups[id] + 1], Some(id))
  {
    hide ItemWith, SearchStart;
  }

  /** An item open once another is covered was open before. */
  lemma OpenBefore(coverage: map<nat, real>, id: nat, next: nat)
    requires Get(coverage[id := 1.0], next, 0.0) < 1.0
    ensures Get(coverage, next, 0.0) < 1.0
  {
  }

  lemma WrapUpIsNext(items: seq<Item>, spot: Spot, a: Action, w: Wording, coverage: map<nat, real>,
                     followups: map<nat, int>, id: nat)
    requires a.kind.WrapUp? && InGuide(items, id)
    ensures var full := coverage[id := 1.0];
            var next := NextUncovered(items, Some(id), full, false);
            At(items, coverage, followups, spot, id) ==>
              if next.None? then IsNext(items, spot, false, a, w, a, full, followups, Some(id))
              else IsNext(items, spot, false, a, w, MoveToItem(ItemWith(items, next.value)), full, followups, next)
  {
    hide Tracks, FullyCovered, NextUncovered, SetDefault, IsNext, Position, SearchStart, Distinct, InGuide;
    if At(items, coverage, followups, spot, id) {
      AtWithin(items, coverage, followups, spot, id);
      CoverCurrent(items, coverage, followups, spot, false);
      if spot.at + 1 < |items| {
        PositionOf(items, spot.at + 1);
        MoveIsNext(items, spot, a, w, MoveToItem(items[spot.at + 1]), coverage[id := 1.0], followups);
      } else {
        EndIsNext(items, spot, a, w, a, coverage[id := 1.0], followups);
      }
    }
  }

  lemma MoveIsNext(items: seq<Item>, spot: Spot, a: Action, w: Wording, said: Action, coverage: map<nat, real>,
                   followups: map<nat, int>)
    requires OnGuide(items, spot) && spot.at
                + 1 < |items| && (WantsAway(items, spot, a) || spot.used == items[spot.at].maxFollowups)
    requires Tracks(items, coverage, followups, Spot(spot.at + 1, 0))
    requires var next := items[spot.at + 1];
             said == Action(AcknowledgeAndMove, Some(next.id), if !a.kind.WrapUp? && a.item
                 == Some(next.id) then a.text else next.question)
    ensures IsNext(items, spot, false, a, w, said, coverage, followups, Some(items[spot.at + 1].id))
  {
    hide Tracks;
  }

  lemma EndIsNext(items: seq<Item>, spot: Spot, a: Action, w: Wording, said: Action, coverage: map<nat, real>,
                  followups: map<nat, int>)
    requires OnGuide(items, spot) && spot.at + 1
                == |items| && (WantsAway(items, spot, a) || spot.used == items[spot.at].maxFollowups)
    requires FullyCovered(items, coverage) && said == if a.kind.WrapUp? then a else Action(WrapUp, None, w.wrapUp)
    ensures IsNext(items, spot, false, a, w, said, coverage, followups, Some(items[spot.at].id))
  {
    hide FullyCovered;
  }

  lemma OtherItemIsNext(items: seq<Item>, spot: Spot, a: Action, w: Wording, coverage: map<nat, real>,
                        followups: map<nat, int>, id: nat)
    requires !a.kind.WrapUp? && InGuide(items, id) && a.item.Some? && InGuide(items, a.item.value) && a.item.value != id
    ensures var full := coverage[id := 1.0];
            var next := NextUncovered(items, Some(id), coverage, true);
            At(items, coverage, followups, spot, id) ==>
              if next.None? then IsNext(items, spot, false, a, w, Action(WrapUp, None, w.wrapUp), full, followups, Some(id))
              else
                var said := if a.item == next then a else MoveToItem(ItemWith(items, next.value));
                IsNext(items, spot, false, a, w, said.(kind := AcknowledgeAndMove, item := next),
                       SetDefault(full, next.value, 0.0), SetDefault(followups, next.value, 0), next)
  {
    hide Tracks, FullyCovered, NextUncovered, SetDefault, IsNext, Position, SearchStart, Distinct, InGuide;
    if At(items, coverage, followups, spot, id) {
      var full := coverage[id := 1.0];
      AtWithin(items, coverage, followups, spot, id);
      CoverCurrent(items, coverage, followups, spot, true);
      CoveringKeepsNext(items, coverage, spot.at);
      if spot.at + 1 < |items| {
        var next := items[spot.at + 1];
        PositionOf(items, spot.at + 1);
        SetDefaultsTrack(items, full, followups, Spot(spot.at + 1, 0));
        var said := if a.item == Some(next.id) then a else MoveToItem(next);
        MoveIsNext(items, spot, a, w, said.(kind := AcknowledgeAndMove, item := Some(next.id)),
                   SetDefault(full, next.id, 0.0), SetDefault(followups, next.id, 0));
      } else {
        EndIsNext(items, spot, a, w, Action(WrapUp, None, w.wrapUp), full, followups);
      }
    }
  }

  lemma OtherId(items: seq<Item>, k: nat)
    requires Distinct(items) && k + 1 < |items|
    ensures items[k + 1].id != items[k].id
  {
  }

  lemma AtWithin(items: seq<Item>, coverage: map<nat, real>, followups: map<nat, int>, spot: Spot, id: nat)
    requires At(items, coverage, followups, spot, id)
    ensures OnGuide(items, spot) && id == items[spot.at].id && Distinct(items)
    ensures InGuide(items, id) && Position(items, id) == spot.at && ItemWith(items, id) == items[spot.at]
    ensures followups[id] == spot.used
  {
    PositionOf(items, spot.at);
  }

  lemma UsedUpIsNext(items: seq<Item>, spot: Spot, a: Action, w: Wording, coverage: map<nat, real>,
                     followups: map<nat, int>, id: nat)
    requires !a.kind.WrapUp? && !(a.item.Some? && InGuide(items, a.item.value) && a.item.value != id)
    requires InGuide(items, id) && id in followups && followups[id] >= ItemWith(items, id).maxFollowups
    ensures var full := coverage[id := 1.0];
            var next := NextUncovered(items, Some(id), full, true);
            At(items, coverage, followups, spot, id) ==>
              if next.None? then IsNext(items, spot, false, a, w, Action(WrapUp, None, w.wrapUp), full, followups, Some(id))
              else IsNext(items, spot, false, a, w, MoveToItem(ItemWith(items, next.value)),
                          SetDefault(full, next.value, 0.0), SetDefault(followups, next.value, 0), next)
  {
    hide Tracks, FullyCovered, NextUncovered, SetDefault, IsNext, Position, SearchStart, Distinct, InGuide;
    if At(items, coverage, followups, spot, id) {
      var full := coverage[id := 1.0];
      AtWithin(items, coverage, followups, spot, id);
      CoverCurrent(items, coverage, followups, spot, true);
      if spot.at + 1 < |items| {
        var next := items[spot.at + 1];
        PositionOf(items, spot.at + 1);
        OtherId(items, spot.at);
        SetDefaultsTrack(items, full, followups, Spot(spot.at + 1, 0));
        MoveIsNext(items, spot, a, w, MoveToItem(next), SetDefault(full, next.id, 0.0), SetDefault(followups, next.id, 0));
      } else {
        EndIsNext(items, spot, a, w, Action(WrapUp, None, w.wrapUp), full, followups);
      }
    }
  }

  lemma ProbeIsNext(items: seq<Item>, spot: Spot, a: Action, w: Wording, coverage: map<nat, real>,
                    followups: map<nat, int>, id: nat)
    requires !a.kind.WrapUp? && !(a.item.Some? && InGuide(items, a.item.value) && a.item.value != id)
    requires InGuide(items, id) && id in coverage && id in followups && followups[id] < ItemWith(items, id).maxFollowups
    ensures At(items, coverage, followups, spot, id) ==>
              IsNext(items, spot, false, a, w, a.(kind := Probe, item := Some(id)),
                     coverage[id := if coverage[id] < 0.5 then 0.5
                         else coverage[id]], followups[id := followups[id] + 1], Some(id))
  {
    hide Tracks;
    if At(items, coverage, followups, spot, id) {
      AtWithin(items, coverage, followups, spot, id);
      ProbeTracks(items, coverage, followups, spot);
    }
  }

  lemma PositionOf(items: seq<Item>, k: nat)
    requires Distinct(items) && k < |items|
    ensures InGuide(items, items[k].id) && Position(items, items[k].id) == k && ItemWith(items, items[k].id) == items[k]
  {
  }

  /** Reading a memory: the current item is the spot's, and the maps, clamped and given their defaults, track it. */
  lemma Settle(items: seq<Item>, m: Memory, spot: Spot, id: nat)
    requires Distinct(items) && Remembers(items, m, spot)
    requires id == if m.current.Some? && InGuide(items, m.current.value) then m.current.value else items[0].id
    ensures At(items, SetDefault(FloatMap(m.coverage), id, 0.0), SetDefault(IntMap(m.followups), id, 0), spot, id)
  {
    PositionOf(items, spot.at);
    assert id == items[spot.at].id;
    TracksClamped(items, m.coverage, m.followups, spot);
    SetDefaultsTrack(items, m.coverage, m.followups, spot);
  }

  /** Covering the current item does not change which item is next after it. */
  lemma CoveringKeepsNext(items: seq<Item>, coverage: map<nat, real>, at: nat)
    requires Distinct(items) && at < |items|
    ensures NextUncovered(items, Some(items[at].id), coverage, true)
                == NextUncovered(items, Some(items[at].id), coverage[items[at].id := 1.0], true)
  {
    hide NextUncovered, FirstUncovered, InGuide, Position;
    var full := coverage[items[at].id := 1.0];
    forall j | at < j < |items| ensures Get(coverage, items[j].id, 0.0) == Get(full, items[j].id, 0.0) {
      assert items[at].id != items[j].id;
    }
    SameFirst(items, coverage, full, at + 1);
    NextAfter(items, coverage, at);
    NextAfter(items, full, at);
  }

  lemma NextAfter(items: seq<Item>, coverage: map<nat, real>, at: nat)
    requires Distinct(items) && at < |items|
    ensures NextUncovered(items, Some(items[at].id), coverage, true)
            == var k := FirstUncovered(items, coverage, at + 1, |items|); if k < |items| then Some(items[k].id) else None
  {
    PositionOf(items, at);
  }

  lemma {:induction false} SameFirst(items: seq<Item>, x: map<nat, real>, y: map<nat, real>, lo: nat)
    requires lo <= |items| && forall j | lo <= j < |items| :: Get(x, items[j].id, 0.0) == Get(y, items[j].id, 0.0)
    ensures FirstUncovered(items, x, lo, |items|) == FirstUncovered(items, y, lo, |items|)
    decreases |items| - lo
  {
    if lo < |items| {
      SameFirst(items, x, y, lo + 1);
    }
  }
}
