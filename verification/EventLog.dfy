/** The append-only event log, as the in-memory store keeps it: the numbering and the reads that every applier of
    the read models relies on. */
module EventLog {
  datatype Json = Str(text: string) | Raw(code: string)

  type Spec = map<string, Json>

  datatype Body =
    | StudyDrafted(author: nat, title: string)
    | SpecUpdated(patch: Spec)
    | CampaignReady | CampaignPublished | CampaignClosed
    | InviteDispatched
    | InterviewStarted
    | InterviewCompleted(duration: int, coverage: real)
    | InterviewAbandoned
    | InsightSetReplaced
    | InsightGenerated(id: nat, content: string)
    | OtherEvent

  datatype Stored = Stored(no: nat, campaign: nat, at: int, body: Body)

  predicate Rising(s: seq<Stored>) {
    && (forall i | 0 <= i < |s| :: s[i].no > 0)
    && (forall i, j | 0 <= i < j < |s| :: s[i].no < s[j].no)
  }

  /** The stream of one campaign. */
  predicate StreamOf(s: seq<Stored>, c: nat) {
    Rising(s) && forall i | 0 <= i < |s| :: s[i].campaign == c
  }

  /** An event before the log has numbered it. */
  datatype Unnumbered = Unnumbered(campaign: nat, at: int, body: Body)

  function Numbered(no: nat, d: Unnumbered): Stored { Stored(no, d.campaign, d.at, d.body) }

  /** The log that a list of events makes. */
  function LogOf(ds: seq<Unnumbered>): (log: seq<Stored>)
    ensures |log| == |ds| && Rising(log)
  {
    seq(|ds|, i requires 0 <= i < |ds| => Numbered(i + 1, ds[i]))
  }

  function OfCampaign(log: seq<Stored>, c: nat): seq<Stored> {
    if log == [] then []
    else
      var e := log[|log| - 1];
      OfCampaign(log[..|log| - 1], c) + if e.campaign == c then [e] else []
  }

  class InMemoryEventStore {
    var events: seq<Stored>
    ghost var appended: seq<Unnumbered>

    ghost predicate Valid()
      reads this
    {
      events == LogOf(appended)
    }

    constructor ()
      ensures Valid() && appended == []
    {
      events, appended := [], [];
    }

    method Append(d: Unnumbered) returns (stored: Stored)
      requires Valid()
      modifies this
      ensures Valid() && appended == old(appended) + [d]
      ensures events == old(events) + [stored]
      ensures stored.no == |events| && stored.campaign == d.campaign && stored.at == d.at && stored.body == d.body
    {
      stored := Numbered(|events| + 1, d);
      events := events + [stored];
      appended := appended + [d];
      assert events == LogOf(appended);
    }

    /** One append after another; other writers may come in between in the program, though not in this method. */
    method AppendMany(ds: seq<Unnumbered>) returns (stored: seq<Stored>)
      requires Valid()
      modifies this
      ensures Valid() && appended == old(appended) + ds && events == old(events) + stored
    {
      stored := [];
      for i := 0 to |ds|
        invariant Valid() && appended == old(appended) + ds[..i] && events == old(events) + stored
      {
        var s := Append(ds[i]);
        stored := stored + [s];
      }
      assert ds[..|ds|] == ds;
    }

    /** A campaign's stream: its events in order, by rising number. */
    method ReadStream(c: nat) returns (stream: seq<Stored>)
      requires Valid()
      ensures stream == OfCampaign(events, c) && StreamOf(stream, c)
      ensures forall e :: e in stream <==> e in events && e.campaign == c
    {
      stream := [];
      for i := 0 to |events|
        invariant stream == OfCampaign(events[..i], c)
      {
        assert events[..i + 1][..i] == events[..i];
        if events[i].campaign == c {
          stream := stream + [events[i]];
        }
      }
      assert events[..|events|] == events;
      StreamRises(events, c);
    }

    /** At most `limit` events numbered above `no`. */
    method ReadFrom(no: nat, limit: nat) returns (found: seq<Stored>)
      requires Valid()
      ensures var n := |events|;
              var lo := if no <= n then no else n;
              found == events[lo..if lo + limit <= n then lo + limit else n]
    {
      var n := |events|;
      var lo := if no <= n then no else n;
      found := [];
      for i := 0 to n
        invariant found == if i <= lo then [] else events[lo..i]
      {
        if events[i].no > no {
          found := found + [events[i]];
        }
      }
      assert found == events[lo..n];
      if |found| > limit {
        found := found[..limit];
      }
    }
  }

  lemma {:induction false} StreamRises(log: seq<Stored>, c: nat)
    requires Rising(log)
    ensures StreamOf(OfCampaign(log, c), c)
    ensures forall e :: e in OfCampaign(log, c) <==> e in log && e.campaign == c
    decreases |log|
  {
    if log != [] {
      var n := |log| - 1;
      StreamRises(log[..n], c);
      var before := OfCampaign(log[..n], c);
      assert forall e :: e in log <==> e == log[n] || e in log[..n];
      forall i | 0 <= i < |before| ensures before[i].no < log[n].no {
        assert before[i] in log[..n];
      }
    }
  }

  /** A stream that has been read stays the beginning of every later one, so appliers that read at different times
      walk the same stream. */
  lemma {:induction false} StreamsGrow(log: seq<Stored>, more: seq<Stored>, c: nat)
    ensures OfCampaign(log, c) <= OfCampaign(log + more, c)
    decreases |more|
  {
    if more == [] {
      assert log + more == log;
    } else {
      var n := |more| - 1;
      assert (log + more)[..|log + more| - 1] == log + more[..n];
      StreamsGrow(log, more[..n], c);
    }
  }

  /** The tail: each time it wakes it takes what is new and moves its cursor to the end. Over a log that grew to
      these lengths it yields every event exactly once, in order. */
  method Tail(log: seq<Stored>, lengths: seq<nat>) returns (yielded: seq<Stored>, cursor: nat)
    requires forall i | 0 <= i < |lengths| :: lengths[i] <= |log|
    requires forall i, j | 0 <= i < j < |lengths| :: lengths[i] <= lengths[j]
    ensures cursor <= |log| && yielded == log[..cursor] && cursor == if lengths == [] then 0 else lengths[|lengths| - 1]
  {
    yielded, cursor := [], 0;
    for i := 0 to |lengths|
      invariant cursor == (if i == 0 then 0 else lengths[i - 1]) && cursor <= |log|
      invariant yielded == log[..cursor]
    {
      var events := log[..lengths[i]];
      if |events| > cursor {
        var fresher := events[cursor..];
        cursor := |events|;
        yielded := yielded + fresher;
      }
    }
  }
}
