/** The unguarded table: insights. A reset deletes a campaign's rows, the inserts behind it rebuild them, and
    nothing stops two appliers from interleaving the two. This module says exactly when the table still ends up
    holding the current set, whatever the interleaving. */
module InsightSets {
  import opened EventLog
  import opened Projection
  import opened ReadModels

  /** The insight rows of one campaign. */
  ghost function Rows(t: Tables, c: nat): set<Insight> {
    set i | i in t.insights && t.insights[i].campaign == c :: t.insights[i]
  }

  /** What one event of the campaign does to its rows. */
  function Effect(rows: set<Insight>, e: Stored): set<Insight> {
    if e.body.InsightSetReplaced? then {}
    else if e.body.InsightGenerated? then rows + {InsightOf(e)}
    else rows
  }

  function Run(rows: set<Insight>, s: seq<Stored>): set<Insight>
    decreases |s|
  {
    if s == [] then rows else Run(Effect(rows, s[0]), s[1..])
  }

  predicate HasReset(s: seq<Stored>) {
    exists i :: 0 <= i < |s| && s[i].body.InsightSetReplaced?
  }

  /** The current set of a stream: what was generated behind its last reset. */
  function Current(s: seq<Stored>): set<Insight> { Run({}, s) }

  // ---------------------------------------------------------------- the table

  /** Insight ids are unique in the log, and no row with one of them holds anything else. */
  ghost predicate IdsAgree(t: Tables, s: seq<Stored>) {
    && (forall i, k | i in t.insights && 0 <= k < |s| && s[k].body.InsightGenerated? && s[k].body.id == i ::
           t.insights[i] == InsightOf(s[k]))
    && (forall i | i in t.insights :: t.insights[i].id == i)
  }

  ghost predicate UniqueIds(s: seq<Stored>) {
    forall j, k | 0 <= j < k < |s| && s[j].body.InsightGenerated? && s[k].body.InsightGenerated? :: s[j].body.id != s[k].body.id
  }

  lemma RowsStep(t: Tables, a: Application, c: nat, s: seq<Stored>, k: nat)
    requires StreamOf(s, c) && UniqueIds(s) && IdsAgree(t, s) && k < |s| && a.event == s[k]
    ensures IdsAgree(Project(t, a), s) && Rows(Project(t, a), c) == Effect(Rows(t, c), a.event)
  {
    var u := Project(t, a);
    hide ChangeStudy, Increment, Plus, NewStudy;
    if a.event.body.InsightGenerated? {
      if a.event.body.id in t.insights {
        assert t.insights[a.event.body.id] == InsightOf(s[k]);
        assert InsightOf(s[k]) in Rows(t, c);
      } else {
        forall x | x in Rows(t, c) ensures x in Rows(u, c) {
          assert u.insights[x.id] == t.insights[x.id];
        }
        assert u.insights[a.event.body.id] == InsightOf(a.event);
      }
    }
  }

  /** Another campaign's event leaves the rows alone, and an id it brings is not one of this campaign's. */
  lemma RowsFrame(t: Tables, a: Application, c: nat, s: seq<Stored>)
    requires IdsAgree(t, s) && a.event.campaign != c
    requires a.event.body.InsightGenerated? ==>
                forall k | 0 <= k < |s| && s[k].body.InsightGenerated? :: s[k].body.id != a.event.body.id
    ensures IdsAgree(Project(t, a), s) && Rows(Project(t, a), c) == Rows(t, c)
  {
    hide ChangeStudy, Increment, Plus, NewStudy;
    var u := Project(t, a);
    forall x | x in Rows(t, c) ensures x in Rows(u, c) {
      assert x.id in t.insights && t.insights[x.id] == x;
      assert x.id in u.insights && u.insights[x.id] == x;
    }
    forall x | x in Rows(u, c) ensures x in Rows(t, c) {
      assert u.insights[x.id] == x;
    }
  }

  ghost predicate ForeignIdsDiffer(apps: seq<Application>, c: nat, s: seq<Stored>) {
    forall i, k | 0 <= i < |apps| && apps[i].event.campaign != c && apps[i].event.body.InsightGenerated?
                  && 0 <= k < |s| && s[k].body.InsightGenerated? :: s[k].body.id != apps[i].event.body.id
  }

  /** The positions visited, as events. */
  function Events(s: seq<Stored>, at: seq<nat>): seq<Stored>
    requires forall i | 0 <= i < |at| :: at[i] < |s|
  {
    seq(|at|, i requires 0 <= i < |at| => s[at[i]])
  }

  /** The table after any applications holds, for this campaign, the run over its own events in the order applied. */
  lemma {:induction false} RowsRun(t: Tables, apps: seq<Application>, c: nat, s: seq<Stored>, at: seq<nat>)
    requires StreamOf(s, c) && UniqueIds(s) && IdsAgree(t, s) && ForeignIdsDiffer(apps, c, s)
    requires Plays(apps, c, s, at) && forall i | 0 <= i < |at| :: at[i] < |s|
    ensures Rows(ProjectAll(t, apps), c) == Run(Rows(t, c), Events(s, at))
    decreases |apps|
  {
    if apps == [] {
      assert Events(s, at) == [];
    } else {
      var a, rest := apps[0], apps[1..];
      assert ForeignIdsDiffer(rest, c, s);
      if a.event.campaign == c {
        RowsStep(t, a, c, s, at[0]);
        RowsRun(Project(t, a), rest, c, s, at[1..]);
        assert Events(s, at)[1..] == Events(s, at[1..]);
      } else {
        RowsFrame(t, a, c, s);
        RowsRun(Project(t, a), rest, c, s, at);
      }
    }
  }

  // ---------------------------------------------------------------- windows

  /** A window of the stream is harmless for the set `final` when running it alone leaves that set: with a reset
      inside, it must rebuild all of it; without one, it may only add what belongs to it. */
  predicate Good(w: seq<Stored>, final: set<Insight>) {
    if HasReset(w) then Run({}, w) == final else Run({}, w) <= final
  }

  lemma {:induction false} RunGrows(x: set<Insight>, s: seq<Stored>)
    ensures HasReset(s) ==> Run(x, s) == Run({}, s)
    ensures !HasReset(s) ==> Run(x, s) == x + Run({}, s)
    decreases |s|
  {
    if s != [] {
      ResetFirst(s);
      RunGrows(Effect(x, s[0]), s[1..]);
      RunGrows(Effect({}, s[0]), s[1..]);
    }
  }

  lemma ResetFirst(s: seq<Stored>)
    requires s != []
    ensures HasReset(s) <==> s[0].body.InsightSetReplaced? || HasReset(s[1..])
  {
    if HasReset(s) && !s[0].body.InsightSetReplaced? {
      var i :| 0 <= i < |s| && s[i].body.InsightSetReplaced?;
      assert s[1..][i - 1] == s[i];
    }
  }

  /** What is left of a harmless window is harmless. */
  lemma GoodRest(w: seq<Stored>, final: set<Insight>)
    requires w != [] && Good(w, final)
    ensures Good(w[1..], final)
  {
    ResetFirst(w);
    RunGrows(Effect({}, w[0]), w[1..]);
    RunGrows({}, w[1..]);
  }

  // ---------------------------------------------------------------- every interleaving

  /** Whose window moves next; the machine state is what is left of every window, and the rows. */
  predicate Interleaves(left: seq<seq<Stored>>, picks: seq<nat>)
    decreases |picks|
  {
    if picks == [] then forall w | 0 <= w < |left| :: left[w] == []
    else picks[0] < |left| && left[picks[0]] != [] && Interleaves(left[picks[0] := left[picks[0]][1..]], picks[1..])
  }

  function Merged(left: seq<seq<Stored>>, picks: seq<nat>): seq<Stored>
    requires Interleaves(left, picks)
    decreases |picks|
  {
    if picks == [] then [] else [left[picks[0]][0]] + Merged(left[picks[0] := left[picks[0]][1..]], picks[1..])
  }

  predicate AnyReset(left: seq<seq<Stored>>) {
    exists w :: 0 <= w < |left| && HasReset(left[w])
  }

  /** The rows are the current set already, but for inserts still to come. */
  ghost predicate OnlyMissing(left: seq<seq<Stored>>, rows: set<Insight>, final: set<Insight>) {
    rows <= final && forall x | x in final :: x in rows || exists w :: 0 <= w < |left| && x in Run({}, left[w])
  }

  /** The exact condition under which appliers over these windows of the stream may interleave freely. */
  ghost predicate Harmless(left: seq<seq<Stored>>, rows: set<Insight>, final: set<Insight>) {
    (forall w | 0 <= w < |left| :: Good(left[w], final)) && (AnyReset(left) || OnlyMissing(left, rows, final))
  }

  lemma HarmlessStep(left: seq<seq<Stored>>, rows: set<Insight>, final: set<Insight>, v: nat)
    requires Harmless(left, rows, final) && v < |left| && left[v] != []
    ensures Harmless(left[v := left[v][1..]], Effect(rows, left[v][0]), final)
  {
    var e, rest := left[v][0], left[v][1..];
    var left' := left[v := rest];
    var rows' := Effect(rows, e);
    GoodRest(left[v], final);
    assert forall w | 0 <= w < |left'| :: left'[w] == if w == v then rest else left[w];
    ResetFirst(left[v]);
    RunGrows(Effect({}, e), rest);
    if AnyReset(left') {
    } else if e.body.InsightSetReplaced? {
      forall x | x in final ensures exists w :: 0 <= w < |left'| && x in Run({}, left'[w]) {
        assert x in Run({}, left'[v]);
      }
    } else {
      assert !AnyReset(left) by {
        if w :| 0 <= w < |left| && HasReset(left[w]) {
          assert HasReset(left'[w]);
        }
      }
      forall x | x in final && x !in rows' ensures exists w :: 0 <= w < |left'| && x in Run({}, left'[w]) {
        var w :| 0 <= w < |left| && x in Run({}, left[w]);
        assert x in Run({}, left'[w]);
      }
    }
  }

  /** Convergence: under that condition every interleaving ends with the current set. */
  lemma {:induction false} EveryInterleavingConverges(left: seq<seq<Stored>>, rows: set<Insight>, final: set<Insight>,
        picks: seq<nat>)
    requires Harmless(left, rows, final) && Interleaves(left, picks)
    ensures Run(rows, Merged(left, picks)) == final
    decreases |picks|
  {
    if picks == [] {
      assert !AnyReset(left);
    } else {
      var v := picks[0];
      HarmlessStep(left, rows, final, v);
      EveryInterleavingConverges(left[v := left[v][1..]], Effect(rows, left[v][0]), final, picks[1..]);
      assert Merged(left, picks)[1..] == Merged(left[v := left[v][1..]], picks[1..]);
    }
  }

  /** One window after another, in the given order. */
  lemma {:induction false} RunsToEnd(left: seq<seq<Stored>>, rows: set<Insight>, v: nat) returns (picks: seq<nat>)
    requires v < |left| && forall w | 0 <= w < |left| && w != v :: left[w] == []
    ensures Interleaves(left, picks) && Merged(left, picks) == left[v]
    decreases |left[v]|
  {
    if left[v] == [] {
      picks := [];
    } else {
      var left' := left[v := left[v][1..]];
      var more := RunsToEnd(left', Effect(rows, left[v][0]), v);
      picks := [v] + more;
      assert picks[1..] == more;
    }
  }

  function Size(left: seq<seq<Stored>>): nat {
    if left == [] then 0 else |left[0]| + Size(left[1..])
  }

  lemma SizeShrinks(left: seq<seq<Stored>>, v: nat)
    requires v < |left| && left[v] != []
    ensures Size(left[v := left[v][1..]]) < Size(left)
  {
    if v > 0 {
      assert left[v := left[v][1..]][1..] == left[1..][v - 1 := left[v][1..]];
      SizeShrinks(left[1..], v - 1);
    }
  }

  /** An interleaving in which window `v` goes last. */
  lemma {:induction false} GoesLast(left: seq<seq<Stored>>, v: nat) returns (picks: seq<nat>, before: seq<Stored>)
    requires v < |left|
    ensures Interleaves(left, picks) && Merged(left, picks) == before + left[v]
    ensures forall e | e in before :: exists w :: 0 <= w < |left| && e in left[w]
    ensures forall w, e | 0 <= w < |left| && w != v && e in left[w] :: e in before
    decreases Size(left)
  {
    if w :| 0 <= w < |left| && w != v && left[w] != [] {
      var left' := left[w := left[w][1..]];
      SizeShrinks(left, w);
      var more, rest := GoesLast(left', v);
      picks, before := [w] + more, [left[w][0]] + rest;
      assert picks[1..] == more;
      assert Merged(left, picks) == [left[w][0]] + Merged(left', more);
      forall x, e | 0 <= x < |left| && x != v && e in left[x] ensures e in before {
        if x == w && e != left[w][0] {
          assert e in left[w][1..];
          assert e in left'[w];
        } else if x != w {
          assert e in left'[x];
        }
      }
      forall e | e in before ensures exists x :: 0 <= x < |left| && e in left[x] {
        if e in rest {
          var x :| 0 <= x < |left'| && e in left'[x];
          assert e in left[x];
        } else {
          assert e in left[w];
        }
      }
    } else {
      picks := RunsToEnd(left, {}, v);
      before := [];
    }
  }

  lemma {:induction false} RunAppend(x: set<Insight>, s: seq<Stored>, u: seq<Stored>)
    ensures Run(x, s + u) == Run(Run(x, s), u)
    decreases |s|
  {
    if s == [] {
      assert s + u == u;
    } else {
      assert (s + u)[1..] == s[1..] + u;
      RunAppend(Effect(x, s[0]), s[1..], u);
    }
  }

  /** Without a reset, a run adds exactly the insights generated in it. */
  lemma {:induction false} RunAdds(s: seq<Stored>, x: Insight)
    requires !HasReset(s)
    ensures x in Run({}, s) <==> exists i :: 0 <= i < |s| && s[i].body.InsightGenerated? && InsightOf(s[i]) == x
    decreases |s|
  {
    if s != [] {
      ResetFirst(s);
      RunAdds(s[1..], x);
      RunGrows(Effect({}, s[0]), s[1..]);
      assert forall i | 1 <= i < |s| :: s[i] == s[1..][i - 1];
      if i :| 0 <= i < |s[1..]| && s[1..][i].body.InsightGenerated? && InsightOf(s[1..][i]) == x {
        assert s[i + 1] == s[1..][i];
      }
    }
  }

  /** Necessity: when the condition fails, some interleaving of the very same appliers ends with another set. */
  lemma OtherwiseSomeInterleavingFails(left: seq<seq<Stored>>, rows: set<Insight>, final: set<Insight>)
      returns (picks: seq<nat>)
    requires left != [] && !Harmless(left, rows, final)
    ensures Interleaves(left, picks) && Run(rows, Merged(left, picks)) != final
  {
    if v :| 0 <= v < |left| && !Good(left[v], final) {
      var before;
      picks, before := GoesLast(left, v);
      RunAppend(rows, before, left[v]);
      RunGrows(Run(rows, before), left[v]);
    } else {
      var before;
      picks, before := GoesLast(left, 0);
      var all := before + left[0];
      NoResetAnywhere(left, all, before);
      RunGrows(rows, all);
      if Run(rows, all) == final {
        forall x | x in final ensures x in rows || exists w :: 0 <= w < |left| && x in Run({}, left[w]) {
          if x !in rows {
            RunAdds(all, x);
            var i :| 0 <= i < |all| && all[i].body.InsightGenerated? && InsightOf(all[i]) == x;
            Generated(left, all, before, i);
          }
        }
        assert OnlyMissing(left, rows, final);
      }
    }
  }

  lemma NoResetAnywhere(left: seq<seq<Stored>>, all: seq<Stored>, before: seq<Stored>)
    requires left != [] && all == before + left[0] && !AnyReset(left)
    requires forall e | e in before :: exists w :: 0 <= w < |left| && e in left[w]
    ensures !HasReset(all)
  {
    forall i | 0 <= i < |all| ensures !all[i].body.InsightSetReplaced? {
      var e := all[i];
      assert e in before || e in left[0];
      var w :| 0 <= w < |left| && e in left[w];
      assert !HasReset(left[w]);
    }
  }

  lemma Generated(left: seq<seq<Stored>>, all: seq<Stored>, before: seq<Stored>, i: nat)
    requires left != [] && all == before + left[0] && !AnyReset(left)
    requires forall e | e in before :: exists w :: 0 <= w < |left| && e in left[w]
    requires i < |all| && all[i].body.InsightGenerated?
    ensures exists w :: 0 <= w < |left| && InsightOf(all[i]) in Run({}, left[w])
  {
    var e := all[i];
    assert e in before || e in left[0];
    var w :| 0 <= w < |left| && e in left[w];
    var k :| 0 <= k < |left[w]| && left[w][k] == e;
    assert !HasReset(left[w]);
    RunAdds(left[w], InsightOf(e));
  }

  /** The row that an event makes. */
  predicate Gives(e: Stored, x: Insight) {
    && e.body.InsightGenerated? && x.id == e.body.id && x.content == e.body.content
    && x.campaign == e.campaign && x.created == e.at
  }

  /** What the current set is, for any stream: the insights generated behind its last reset, whatever else lies
      there. */
  lemma CurrentIs(s: seq<Stored>, r: nat, x: Insight)
    requires r < |s| && s[r].body.InsightSetReplaced? && !HasReset(s[r + 1..])
    ensures x in Current(s) <==> exists i :: r < i < |s| && Gives(s[i], x)
  {
    var rest := s[r + 1..];
    assert s == s[..r] + [s[r]] + rest;
    RunAppend({}, s[..r] + [s[r]], rest);
    RunAppend({}, s[..r], [s[r]]);
    RunOfReset(Run({}, s[..r]), s[r]);
    RunAdds(rest, x);
    forall i | 0 <= i < |rest| ensures rest[i] == s[r + 1 + i] {
    }
    if i :| 0 <= i < |rest| && rest[i].body.InsightGenerated? && InsightOf(rest[i]) == x {
      assert Gives(s[r + 1 + i], x);
    }
    if i :| r < i < |s| && Gives(s[i], x) {
      assert rest[i - r - 1] == s[i];
    }
  }

  lemma RunOfReset(rows: set<Insight>, e: Stored)
    requires e.body.InsightSetReplaced?
    ensures Run(rows, [e]) == {}
  {
    assert [e][1..] == [];
  }

  // ---------------------------------------------------------------- the appliers there are

  /** A walker that starts anywhere and walks to the end of the stream is harmless. */
  lemma {:induction false} ToTheEndIsGood(s: seq<Stored>, start: nat)
    requires start <= |s|
    ensures Good(s[start..], Current(s))
    decreases start
  {
    if start == 0 {
      assert s[0..] == s;
    } else {
      ToTheEndIsGood(s, start - 1);
      assert s[start - 1..][1..] == s[start..];
      GoodRest(s[start - 1..], Current(s));
    }
  }

  /** Appliers that all walk to the end, each from its own start, at least one of them through the last reset,
      leave exactly the current set - from any contents of the table and in any interleaving. */
  lemma WalkersToTheEndConverge(t: Tables, apps: seq<Application>, c: nat, s: seq<Stored>, at: seq<nat>,
                                starts: seq<nat>, picks: seq<nat>)
    requires StreamOf(s, c) && UniqueIds(s) && IdsAgree(t, s) && ForeignIdsDiffer(apps, c, s)
    requires forall w | 0 <= w < |starts| :: starts[w] <= |s|
    requires exists w :: 0 <= w < |starts| && HasReset(s[starts[w]..])
    requires Plays(apps, c, s, at) && forall i | 0 <= i < |at| :: at[i] < |s|
    requires var left := seq(|starts|, w requires 0 <= w < |starts| => s[starts[w]..]);
             Interleaves(left, picks) && Events(s, at) == Merged(left, picks)
    ensures Rows(ProjectAll(t, apps), c) == Current(s)
    ensures forall r: nat, x | r < |s| && s[r].body.InsightSetReplaced? && !HasReset(s[r + 1..]) ::
              x in Rows(ProjectAll(t, apps), c) <==> exists i :: r < i < |s| && Gives(s[i], x)
  {
    var left := seq(|starts|, w requires 0 <= w < |starts| => s[starts[w]..]);
    forall w | 0 <= w < |left| ensures Good(left[w], Current(s)) {
      ToTheEndIsGood(s, starts[w]);
    }
    assert AnyReset(left) by {
      var w :| 0 <= w < |starts| && HasReset(s[starts[w]..]);
      assert HasReset(left[w]);
    }
    RowsRun(t, apps, c, s, at);
    EveryInterleavingConverges(left, Rows(t, c), Current(s), picks);
    forall r: nat, x | r < |s| && s[r].body.InsightSetReplaced? && !HasReset(s[r + 1..])
      ensures x in Current(s) <==> exists i :: r < i < |s| && Gives(s[i], x)
    {
      CurrentIs(s, r, x);
    }
  }

  /** A synchronisation works on a snapshot of the stream, beside an applier that walks all of it. Every
      interleaving of the two is safe if and only if the snapshot already rebuilds the current set - or holds no
      reset, and no rows but of that set. */
  lemma SnapshotIsHarmlessIff(s: seq<Stored>, m: nat, rows: set<Insight>)
    requires m <= |s| && HasReset(s)
    ensures Harmless([s, s[..m]], rows, Current(s))
            <==> if HasReset(s[..m]) then Current(s[..m]) == Current(s) else Current(s[..m]) <= Current(s)
  {
    var left := [s, s[..m]];
    ToTheEndIsGood(s, 0);
    assert s[0..] == s;
    assert left[0] == s && left[1] == s[..m];
    assert Good(left[1], Current(s)) <==> if HasReset(s[..m]) then Current(s[..m])
        == Current(s) else Current(s[..m]) <= Current(s);
    assert AnyReset(left) by { assert HasReset(left[0]); }
  }

  /** A stale set is reachable: a synchronisation that read the stream just before a new batch was appended, and
      writes after it, leaves the old set in place of the new one. */
  lemma SlowSnapshotLeavesTheOldSet(earlier: seq<Stored>, batch: seq<Stored>, rows: set<Insight>)
      returns (picks: seq<nat>)
    requires batch != [] && batch[0].body.InsightSetReplaced? && HasReset(earlier) && Current(earlier) != Current(batch)
    ensures var left := [earlier + batch, earlier];
            Interleaves(left, picks) && Run(rows, Merged(left, picks))
                == Current(earlier) && Current(earlier) != Current(earlier + batch)
  {
    var left := [earlier + batch, earlier];
    var before;
    picks, before := GoesLast(left, 1);
    RunAppend(rows, before, earlier);
    RunGrows(Run(rows, before), earlier);
    RunAppend({}, earlier, batch);
    assert HasReset(batch);
    RunGrows(Current(earlier), batch);
  }

  // ---------------------------------------------------------------- batches

  predicate IsBatch(b: seq<Stored>) {
    b != [] && b[0].body.InsightSetReplaced? && forall i | 1 <= i < |b| :: b[i].body.InsightGenerated?
  }

  /** When a batch is appended in one piece, the current set is that batch, whatever came before. */
  lemma BatchReplacesSet(s: seq<Stored>, b: seq<Stored>, x: Insight)
    requires IsBatch(b)
    ensures x in Current(s + b) <==> exists i :: 1 <= i < |b| && Gives(b[i], x)
  {
    RunAppend({}, s, b);
    assert HasReset(b);
    RunGrows(Current(s), b);
    var rows := b[1..];
    assert forall i | 0 <= i < |rows| :: rows[i] == b[i + 1];
    RunAdds(rows, x);
    if i :| 0 <= i < |rows| && rows[i].body.InsightGenerated? && InsightOf(rows[i]) == x {
      assert Gives(b[i + 1], x);
    }
    if i :| 1 <= i < |b| && Gives(b[i], x) {
      assert rows[i - 1] == b[i];
    }
  }

  /** What a list of inserts generates. */
  function Generates(s: seq<Stored>): set<Insight> { Run({}, s) }

  predicate OnlyInserts(s: seq<Stored>) { forall i | 0 <= i < |s| :: s[i].body.InsightGenerated? }

  lemma {:induction false} MergedInserts(left: seq<seq<Stored>>, picks: seq<nat>, a: seq<Stored>, b: seq<Stored>,
                                         rows: set<Insight>)
    requires left == [a, b] && OnlyInserts(a) && OnlyInserts(b) && Interleaves(left, picks)
    ensures Run(rows, Merged(left, picks)) == rows + Generates(a) + Generates(b)
    decreases |picks|
  {
    if picks == [] {
      assert left[0] == [] && left[1] == [];
    } else {
      var v := picks[0];
      var e := left[v][0];
      var next := left[v := left[v][1..]];
      InsertFirst(left[v]);
      MergedInserts(next, picks[1..], next[0], next[1], rows + {InsightOf(e)});
      assert Merged(left, picks) == [e] + Merged(next, picks[1..]);
      assert ([e] + Merged(next, picks[1..]))[1..] == Merged(next, picks[1..]);
    }
  }

  lemma InsertFirst(s: seq<Stored>)
    requires s != [] && OnlyInserts(s)
    ensures Generates(s) == {InsightOf(s[0])} + Generates(s[1..]) && !HasReset(s) && !HasReset(s[1..])
  {
    assert {} + {InsightOf(s[0])} == {InsightOf(s[0])};
    RunGrows({InsightOf(s[0])}, s[1..]);
  }

  /** A batch is appended event by event, so two analyses can append between each other. In every interleaving in
      which `a` resets first, the current set is everything `b` generates and what `a` appends behind `b`'s reset:
      `rest` is what `a` still has to append when `b` starts. */
  lemma {:induction false} ShuffledBatches(a: seq<Stored>, b: seq<Stored>, picks: seq<nat>, rows: set<Insight>)
      returns (rest: seq<Stored>)
    requires OnlyInserts(a) && IsBatch(b) && Interleaves([a, b], picks)
    ensures exists k :: 0 <= k <= |a| && rest == a[k..]
    ensures Run(rows, Merged([a, b], picks)) == Generates(rest) + Generates(b[1..])
    ensures rest == [] <==> Merged([a, b], picks) == a + b
    decreases |picks|
  {
    hide Run, Merged, Interleaves;
    TwoStep(a, b, picks);
    if picks[0] == 0 {
      assert OnlyInserts(a[1..]);
      var m := Merged([a[1..], b], picks[1..]);
      RunCons(rows, a[0], m);
      rest := ShuffledBatches(a[1..], b, picks[1..], Effect(rows, a[0]));
      var k :| 0 <= k <= |a[1..]| && rest == a[1..][k..];
      assert rest == a[k + 1..];
      assert a + b == [a[0]] + (a[1..] + b);
      SameTail(a[0], m, a[1..] + b);
    } else {
      rest := a;
      assert a == a[0..] && OnlyInserts(b[1..]);
      var m := Merged([a, b[1..]], picks[1..]);
      RunCons(rows, b[0], m);
      MergedInserts([a, b[1..]], picks[1..], a, b[1..], {});
      if a == [] {
        OnlyOneLeft(b[1..], picks[1..]);
        assert b == [b[0]] + b[1..] && a + b == b;
      } else {
        assert (a + b)[0] == a[0] && ([b[0]] + m)[0] == b[0];
      }
    }
  }

  lemma SameTail(e: Stored, x: seq<Stored>, y: seq<Stored>)
    ensures [e] + x == [e] + y <==> x == y
  {
    assert ([e] + x)[1..] == x && ([e] + y)[1..] == y;
  }

  lemma RunCons(rows: set<Insight>, e: Stored, m: seq<Stored>)
    ensures Run(rows, [e] + m) == Run(Effect(rows, e), m)
  {
    assert ([e] + m)[1..] == m;
  }

  /** The first move of two windows, one of which is not empty. */
  lemma TwoStep(a: seq<Stored>, b: seq<Stored>, picks: seq<nat>)
    requires b != [] && Interleaves([a, b], picks)
    ensures picks != []
    ensures picks[0] == 0 ==>
              && a != [] && Interleaves([a[1..], b], picks[1..])
              && Merged([a, b], picks) == [a[0]] + Merged([a[1..], b], picks[1..])
    ensures picks[0] != 0 ==>
              && Interleaves([a, b[1..]], picks[1..])
              && Merged([a, b], picks) == [b[0]] + Merged([a, b[1..]], picks[1..])
  {
    var left := [a, b];
    assert left[0] == a && left[1] == b;
    assert picks != [];
    assert left[0 := if a == [] then a else a[1..]] == [if a == [] then a else a[1..], b] && left[1 := b[1..]] == [a, b[1..]];
  }

  lemma {:induction false} OnlyOneLeft(b: seq<Stored>, picks: seq<nat>)
    requires Interleaves([[], b], picks)
    ensures Merged([[], b], picks) == b
    decreases |picks|
  {
    var left: seq<seq<Stored>> := [[], b];
    assert left[0] == [] && left[1] == b;
    if picks != [] {
      assert picks[0] == 1;
      assert left[1 := b[1..]] == [[], b[1..]];
      OnlyOneLeft(b[1..], picks[1..]);
    }
  }

  /** Exactly when the current set is the later batch alone: the earlier one was appended completely before the
      later one began. No insight of one batch is one of the other's; `a` is the batch that resets first. */
  lemma LaterBatchStandsIff(s: seq<Stored>, a: seq<Stored>, b: seq<Stored>, picks: seq<nat>)
    requires IsBatch(a) && IsBatch(b) && Interleaves([a, b], picks) && picks != [] && picks[0] == 0
    requires Generates(a[1..]) !! Generates(b[1..])
    ensures Current(s + Merged([a, b], picks)) == Generates(b[1..]) <==> Merged([a, b], picks) == a + b
  {
    hide Run, Merged, Interleaves;
    TwoStep(a, b, picks);
    var m := Merged([a[1..], b], picks[1..]);
    RunAppend({}, s, [a[0]] + m);
    RunCons(Run({}, s), a[0], m);
    assert OnlyInserts(a[1..]);
    var rest := ShuffledBatches(a[1..], b, picks[1..], {});
    assert a + b == [a[0]] + (a[1..] + b);
    SameTail(a[0], m, a[1..] + b);
    var k :| 0 <= k <= |a[1..]| && rest == a[1..][k..];
    if rest != [] {
      InsertFirst(rest);
      SuffixGenerates(a[1..], k);
      assert InsightOf(rest[0]) in Generates(a[1..]);
    } else {
      NothingGenerated();
    }
  }

  lemma NothingGenerated()
    ensures Generates([]) == {}
  {
  }

  lemma {:induction false} SuffixGenerates(s: seq<Stored>, k: nat)
    requires OnlyInserts(s) && k <= |s|
    ensures Generates(s[k..]) <= Generates(s)
    decreases k
  {
    if k == 0 {
      assert s[0..] == s;
    } else {
      InsertFirst(s);
      SuffixGenerates(s[1..], k - 1);
      assert s[1..][k - 1..] == s[k..];
    }
  }
}
