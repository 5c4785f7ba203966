/** Replies that overlap inside the harness.

    Handling a reply gives up control at every read, append and write. Here each of these is a step of its own and
    any number of replies is in flight: a reply reads its campaign's memory, then its interview's, appends event by
    event, writes its interview's memory, and appends what the observers add. What its agent makes of the context
    is settled by what it has read. */
module Overlap {
  import opened Wrappers
  import opened Harness

  datatype Job =
    | Started(cmd: Command)
    | HasCampaign(cmd: Command, campaign: Context)
    | Working(cmd: Command, before: seq<Event>, write: Option<Context>, after: seq<Event>)

  datatype Entry = Entry(job: nat, event: Event)

  /** A reply whose context is read, in the order of the reading, with what it is going to append and answer. */
  datatype Record = Record(job: nat, served: Served)

  datatype Floor = Floor(log: seq<Entry>, memory: Memory, started: set<nat>, jobs: map<nat, Job>, records: seq<Record>)

  datatype Step =
    | Start(job: nat, cmd: Command)
    | ReadCampaign(job: nat)
    | ReadInterview(job: nat)
    | Work(job: nat)
    | Finish(job: nat)

  function Opening(m: Memory): Floor { Floor([], m, {}, map[], []) }

  /** Commands are replies; campaigns have other ids than interviews. */
  ghost predicate Enabled(f: Floor, s: Step, interviews: set<nat>) {
    match s
    case Start(j, cmd) =>
      j !in f.started && IsReply(cmd) && cmd.interview.value in interviews && cmd.campaign.value !in interviews
    case ReadCampaign(j) => j in f.jobs && f.jobs[j].Started?
    case ReadInterview(j) => j in f.jobs && f.jobs[j].HasCampaign?
    case Work(j) => j in f.jobs && f.jobs[j].Working? && !Done(f.jobs[j])
    case Finish(j) => j in f.jobs && f.jobs[j].Working? && Done(f.jobs[j])
  }

  predicate Done(b: Job)
    requires b.Working?
  {
    b.before == [] && b.write.None? && b.after == []
  }

  function ReactionOf(cfg: Config, m: Memory, b: Job): Reaction
    requires b.HasCampaign?
  {
    React(cfg, b.cmd, b.campaign + if b.cmd.interview.Some? then Scope(m, b.cmd.interview.value) else map[])
  }

  function Perform(cfg: Config, f: Floor, s: Step): Floor {
    match s
    case Start(j, cmd) => f.(started := f.started + {j}, jobs := f.jobs[j := Started(cmd)])
    case ReadCampaign(j) =>
      if j !in f.jobs || f.jobs[j].cmd.campaign.None? then f
      else
        var cmd := f.jobs[j].cmd;
        f.(jobs := f.jobs[j := HasCampaign(cmd, Scope(f.memory, cmd.campaign.value))])
    case ReadInterview(j) =>
      if j !in f.jobs || !f.jobs[j].HasCampaign? then f
      else
        var cmd, x := f.jobs[j].cmd, ReactionOf(cfg, f.memory, f.jobs[j]);
        var write := if x.write.Some? then Some(x.write.value.delta) else None;
        f.(jobs := f.jobs[j := Working(cmd, x.before, write, x.after)],
           records := f.records + [Record(j, Served(cmd, x.before + x.after, x.response))])
    case Work(j) =>
      if j !in f.jobs || !f.jobs[j].Working? then f
      else
        var b := f.jobs[j];
        if b.before != [] then
          f.(log := f.log + [Entry(j, b.before[0])], jobs := f.jobs[j := b.(before := b.before[1..])])
        else if b.write.Some? && b.cmd.interview.Some? then
          var i := b.cmd.interview.value;
          f.(memory := f.memory[i := Scope(f.memory, i) + b.write.value], jobs := f.jobs[j := b.(write := None)])
        else if b.after != [] then
          f.(log := f.log + [Entry(j, b.after[0])], jobs := f.jobs[j := b.(after := b.after[1..])])
        else f
    case Finish(j) => f.(jobs := f.jobs - {j})
  }

  function PerformAll(cfg: Config, f: Floor, steps: seq<Step>): Floor
    decreases |steps|
  {
    if steps == [] then f else PerformAll(cfg, Perform(cfg, f, steps[0]), steps[1..])
  }

  ghost predicate Runs(cfg: Config, f: Floor, steps: seq<Step>, interviews: set<nat>)
    decreases |steps|
  {
    steps == [] || (Enabled(f, steps[0], interviews) && Runs(cfg, Perform(cfg, f, steps[0]), steps[1..], interviews))
  }

  // ---------------------------------------------------------------- the condition

  /** Reply `j` to this interview has read its memory but not yet written it. */
  predicate Pending(f: Floor, j: nat, i: nat) {
    j in f.jobs && f.jobs[j].Working? && f.jobs[j].cmd.interview == Some(i) && f.jobs[j].write.Some?
  }

  ghost predicate Clean(f: Floor, i: nat) { forall j: nat :: !Pending(f, j, i) }

  predicate Reads(f: Floor, s: Step, i: nat) {
    s.ReadInterview? && s.job in f.jobs && f.jobs[s.job].cmd.interview == Some(i)
  }

  /** No reply to this interview reads its memory while another one is going to write it. */
  ghost predicate CleanReads(cfg: Config, f: Floor, steps: seq<Step>, i: nat)
    decreases |steps|
  {
    steps == [] || ((Reads(f, steps[0], i) ==> Clean(f, i)) && CleanReads(cfg, Perform(cfg, f, steps[0]), steps[1..], i))
  }

  /** A reply to this interview starts only when no other one is in flight. */
  ghost predicate OneAtATime(cfg: Config, f: Floor, steps: seq<Step>, i: nat)
    decreases |steps|
  {
    steps == [] ||
    (&& (steps[0].Start? && steps[0].cmd.interview == Some(i) ==> forall j | j in f.jobs :: f.jobs[j].cmd.interview != Some(i))
     && OneAtATime(cfg, Perform(cfg, f, steps[0]), steps[1..], i))
  }

  ghost predicate OneInFlight(f: Floor, i: nat) {
    forall j, k | j in f.jobs && k in f.jobs && f.jobs[j].cmd.interview == Some(i) && f.jobs[k].cmd.interview == Some(i) :: j == k
  }

  /** One reply in flight for each interview at a time is enough. */
  lemma {:induction false} OneAtATimeReadsCleanly(cfg: Config, f: Floor, steps: seq<Step>, i: nat, interviews: set<nat>)
    requires Runs(cfg, f, steps, interviews) && OneAtATime(cfg, f, steps, i) && OneInFlight(f, i)
    ensures CleanReads(cfg, f, steps, i)
    decreases |steps|
  {
    if steps != [] {
      OneInFlightStep(cfg, f, steps[0], i, interviews);
      OneAtATimeReadsCleanly(cfg, Perform(cfg, f, steps[0]), steps[1..], i, interviews);
    }
  }

  lemma OneInFlightStep(cfg: Config, f: Floor, s: Step, i: nat, interviews: set<nat>)
    requires Enabled(f, s, interviews) && OneInFlight(f, i)
    requires s.Start? && s.cmd.interview == Some(i) ==> forall j | j in f.jobs :: f.jobs[j].cmd.interview != Some(i)
    ensures OneInFlight(Perform(cfg, f, s), i) && (Reads(f, s, i) ==> Clean(f, i))
  {
    hide ReactionOf;
    var f' := Perform(cfg, f, s);
    forall j | j in f'.jobs && !(s.Start? && j == s.job) ensures j in f.jobs && f'.jobs[j].cmd == f.jobs[j].cmd {
    }
  }

  // ---------------------------------------------------------------- what an interview's replies get

  function Mine(records: seq<Record>, i: nat): seq<Served> {
    if records == [] then []
    else
      var r := records[|records| - 1];
      Mine(records[..|records| - 1], i) + if r.served.command.interview == Some(i) then [r.served] else []
  }

  function CommandsOf(served: seq<Served>): seq<Command> {
    seq(|served|, k requires 0 <= k < |served| => served[k].command)
  }

  /** The interview's replies handled alone, one whole reply after another, from this memory. */
  function Alone(cfg: Config, m: Memory, cmds: seq<Command>): (World, seq<Served>) { Serve(cfg, World([], m), cmds) }

  lemma {:induction false} ServeOneMore(cfg: Config, w: World, cmds: seq<Command>, cmd: Command)
    ensures var (v, out) := Serve(cfg, w, cmds);
            var (v', r) := HandleOne(cfg, v, cmd, 0);
            Serve(cfg, w, cmds + [cmd]) ==
              (v', out + [Served(cmd, if |v.log| <= |v'.log| then v'.log[|v.log|..] else [], r)])
    decreases |cmds|
  {
    hide HandleOne;
    if cmds == [] {
      assert [] + [cmd] == [cmd] && [cmd][1..] == [];
      var (v', r) := HandleOne(cfg, w, cmd, 0);
      assert Serve(cfg, v', []) == (v', []);
      var last := Served(cmd, if |w.log| <= |v'.log| then v'.log[|w.log|..] else [], r);
      assert [last] + [] == [last] == [] + [last];
    } else {
      assert (cmds + [cmd])[1..] == cmds[1..] + [cmd] && (cmds + [cmd])[0] == cmds[0];
      var (w', r') := HandleOne(cfg, w, cmds[0], 0);
      ServeOneMore(cfg, w', cmds[1..], cmd);
      var first := Served(cmds[0], if |w.log| <= |w'.log| then w'.log[|w.log|..] else [], r');
      var rest, more := Serve(cfg, w', cmds[1..]).1, Serve(cfg, w', cmds[1..] + [cmd]).1;
      assert Serve(cfg, w, cmds).1 == [first] + rest && Serve(cfg, w, cmds + [cmd]).1 == [first] + more;
      assert more == rest + [more[|rest|]];
      assert [first] + (rest + [more[|rest|]]) == ([first] + rest) + [more[|rest|]];
    }
  }

  ghost predicate AllReplyTo(cmds: seq<Command>, i: nat) {
    forall cmd | cmd in cmds :: IsReply(cmd) && cmd.interview == Some(i)
  }

  lemma {:induction false} AloneIsLocal(cfg: Config, w: World, cmds: seq<Command>, i: nat)
    requires NoFollowUps(cfg) && AllReplyTo(cmds, i)
    ensures forall k | k != i :: Scope(Serve(cfg, w, cmds).0.memory, k) == Scope(w.memory, k)
    decreases |cmds|
  {
    hide HandleOne, NoFollowUps;
    if cmds != [] {
      assert cmds[0] in cmds && forall cmd | cmd in cmds[1..] :: cmd in cmds;
      ReplyIsLocal(cfg, w, w, cmds[0]);
      AloneIsLocal(cfg, HandleOne(cfg, w, cmds[0], 0).0, cmds[1..], i);
    }
  }

  /** One more reply handled alone, in terms of its reaction. */
  lemma AloneOneMore(cfg: Config, m: Memory, cmds: seq<Command>, cmd: Command, i: nat)
    requires NoFollowUps(cfg) && AllReplyTo(cmds, i) && IsReply(cmd) && cmd.interview == Some(i) && cmd.campaign.value != i
    ensures var (v, out) := Alone(cfg, m, cmds);
            var x := React(cfg, cmd, Scope(m, cmd.campaign.value) + Scope(v.memory, i));
            Alone(cfg, m, cmds + [cmd]) == (Settle(v, x), out + [Served(cmd, x.before + x.after, x.response)])
  {
    hide React, HandleOne, NoFollowUps;
    var (v, out) := Alone(cfg, m, cmds);
    AloneIsLocal(cfg, World([], m), cmds, i);
    var x := React(cfg, cmd, LoadContext(v.memory, cmd));
    ServeOneMore(cfg, World([], m), cmds, cmd);
    ReplyHandled(cfg, v, cmd);
    assert Settle(v, x).log[|v.log|..] == x.before + x.after;
  }

  // ---------------------------------------------------------------- the invariants

  /** What holds of every floor: jobs are replies, a campaign's memory is what it was, and a job that has read it
      has read just that. */
  ghost predicate Tidy(f: Floor, m: Memory, interviews: set<nat>) {
    && (forall k | k !in interviews :: Scope(f.memory, k) == Scope(m, k))
    && (forall j | j in f.jobs ::
          && IsReply(f.jobs[j].cmd) && f.jobs[j].cmd.interview.value in interviews && f.jobs[j].cmd.campaign.value !in interviews
          && (f.jobs[j].HasCampaign? ==> f.jobs[j].campaign == Scope(m, f.jobs[j].cmd.campaign.value)))
    && (forall j | j in f.jobs :: j in f.started)
    && (forall r | r in f.records :: IsReply(r.served.command) && r.served.command.campaign.value !in interviews)
  }

  lemma TidyStep(cfg: Config, f: Floor, s: Step, m: Memory, interviews: set<nat>)
    requires Enabled(f, s, interviews) && Tidy(f, m, interviews)
    ensures Tidy(Perform(cfg, f, s), m, interviews)
  {
    hide React;
  }

  /** The interview so far looks as if its replies had been handled alone, but for a write that is still to come. */
  ghost predicate AsAlone(cfg: Config, f: Floor, m: Memory, i: nat) {
    var mine := Mine(f.records, i);
    var (v, out) := Alone(cfg, m, CommandsOf(mine));
    && mine == out
    && (forall j, k | Pending(f, j, i) && Pending(f, k, i) :: j == k)
    && (Clean(f, i) ==> Scope(f.memory, i) == Scope(v.memory, i))
    && (forall j | Pending(f, j, i) :: Scope(f.memory, i) + f.jobs[j].write.value == Scope(v.memory, i))
  }

  lemma {:induction false} MineAreReplies(records: seq<Record>, i: nat)
    requires forall r | r in records :: IsReply(r.served.command)
    ensures AllReplyTo(CommandsOf(Mine(records, i)), i)
  {
    if records != [] {
      var n := |records| - 1;
      MineAreReplies(records[..n], i);
      assert records[n] in records && records == records[..n] + [records[n]];
      MineOneMore(records[..n], records[n], i);
      if records[n].served.command.interview != Some(i) {
        assert Mine(records, i) == Mine(records[..n], i);
      }
    }
  }

  lemma MineOneMore(records: seq<Record>, r: Record, i: nat)
    ensures Mine(records + [r], i) == Mine(records, i) + if r.served.command.interview == Some(i) then [r.served] else []
    ensures r.served.command.interview == Some(i) ==>
              CommandsOf(Mine(records + [r], i)) == CommandsOf(Mine(records, i)) + [r.served.command]
  {
    assert (records + [r])[..|records|] == records;
  }

  /** What a step may change: the records by one that is read, the memory by one write, and its own job. */
  lemma StepFrame(cfg: Config, f: Floor, s: Step, interviews: set<nat>)
    requires Enabled(f, s, interviews)
    ensures var f' := Perform(cfg, f, s);
            && (!s.ReadInterview? ==> f'.records == f.records)
            && (s.ReadInterview? ==> |f'.records| == |f.records| + 1 && f'.records[..|f.records|] == f.records
                                     && f'.records[|f.records|].served.command == f.jobs[s.job].cmd)
            && (forall j: nat | j != s.job :: (j in f'.jobs <==> j in f.jobs) && (j in f.jobs ==> f'.jobs[j] == f.jobs[j]))
            && (s.job in f'.jobs && !s.Start? ==> s.job in f.jobs && f'.jobs[s.job].cmd == f.jobs[s.job].cmd)
  {
    hide ReactionOf;
  }

  lemma RecordsStep(cfg: Config, f: Floor, s: Step, i: nat, interviews: set<nat>)
    requires Enabled(f, s, interviews)
    ensures var f' := Perform(cfg, f, s);
            && Mine(f.records, i) <= Mine(f'.records, i)
            && (!Reads(f, s, i) ==> Mine(f'.records, i) == Mine(f.records, i))
  {
    hide Perform, Mine;
    var f' := Perform(cfg, f, s);
    StepFrame(cfg, f, s, interviews);
    if s.ReadInterview? {
      assert f'.records == f.records + [f'.records[|f.records|]];
      MineOneMore(f.records, f'.records[|f.records|], i);
    }
  }

  /** Steps that neither read nor write this interview's memory. */
  lemma OtherStep(cfg: Config, f: Floor, s: Step, i: nat, interviews: set<nat>)
    requires Enabled(f, s, interviews) && !Reads(f, s, i) && !(s.Work? && Pending(f, s.job, i) && f.jobs[s.job].before == [])
    requires forall j | j in f.jobs :: j in f.started
    ensures var f' := Perform(cfg, f, s);
            && Mine(f'.records, i) == Mine(f.records, i) && Scope(f'.memory, i) == Scope(f.memory, i)
            && forall j: nat :: Pending(f', j, i)
                   == Pending(f, j, i) && (Pending(f, j, i) ==> f'.jobs[j].write == f.jobs[j].write)
  {
    var f' := Perform(cfg, f, s);
    RecordsStep(cfg, f, s, i, interviews);
    StepFrame(cfg, f, s, interviews);
    OwnJob(cfg, f, s, i, interviews);
    hide Perform, Mine, Enabled;
    forall j: nat ensures Pending(f', j, i) == Pending(f, j, i) && (Pending(f, j, i) ==> f'.jobs[j].write == f.jobs[j].write) {
      if j != s.job {
        assert (j in f'.jobs <==> j in f.jobs) && (j in f.jobs ==> f'.jobs[j] == f.jobs[j]);
      }
    }
  }

  lemma OwnJob(cfg: Config, f: Floor, s: Step, i: nat, interviews: set<nat>)
    requires Enabled(f, s, interviews) && !Reads(f, s, i) && !(s.Work? && Pending(f, s.job, i) && f.jobs[s.job].before == [])
    requires forall j | j in f.jobs :: j in f.started
    ensures var f', j := Perform(cfg, f, s), s.job;
            && Pending(f', j, i) == Pending(f, j, i) && (Pending(f, j, i) ==> f'.jobs[j].write == f.jobs[j].write)
            && Scope(f'.memory, i) == Scope(f.memory, i)
  {
    hide ReactionOf;
  }

  lemma SameAsAlone(cfg: Config, f: Floor, f': Floor, m: Memory, i: nat)
    requires AsAlone(cfg, f, m, i)
    requires Mine(f'.records, i) == Mine(f.records, i) && Scope(f'.memory, i) == Scope(f.memory, i)
    requires forall j: nat :: Pending(f', j, i) == Pending(f, j, i) && (Pending(f, j, i) ==> f'.jobs[j].write == f.jobs[j].write)
    ensures AsAlone(cfg, f', m, i)
  {
    hide Alone, CommandsOf, Scope, Mine, Pending;
  }

  lemma OtherStepKeeps(cfg: Config, f: Floor, s: Step, m: Memory, i: nat, interviews: set<nat>)
    requires Enabled(f, s, interviews) && Tidy(f, m, interviews) && AsAlone(cfg, f, m, i)
    requires !Reads(f, s, i) && !(s.Work? && Pending(f, s.job, i) && f.jobs[s.job].before == [])
    ensures AsAlone(cfg, Perform(cfg, f, s), m, i)
  {
    hide AsAlone, Perform, Enabled;
    OtherStep(cfg, f, s, i, interviews);
    SameAsAlone(cfg, f, Perform(cfg, f, s), m, i);
  }

  lemma WriteKeeps(cfg: Config, f: Floor, s: Step, m: Memory, i: nat, interviews: set<nat>)
    requires s.Work? && Pending(f, s.job, i) && f.jobs[s.job].before == []
    requires Enabled(f, s, interviews) && AsAlone(cfg, f, m, i)
    ensures AsAlone(cfg, Perform(cfg, f, s), m, i)
  {
    hide Alone, CommandsOf;
    var f' := Perform(cfg, f, s);
    forall j: nat ensures !Pending(f', j, i) {
      assert Pending(f', j, i) ==> Pending(f, j, i);
    }
  }

  lemma ReadKeeps(cfg: Config, f: Floor, s: Step, m: Memory, i: nat, interviews: set<nat>)
    requires Enabled(f, s, interviews) && Tidy(f, m, interviews) && AsAlone(cfg, f, m, i) && NoFollowUps(cfg)
    requires Reads(f, s, i) && Clean(f, i)
    ensures AsAlone(cfg, Perform(cfg, f, s), m, i)
  {
    hide React, Alone, CommandsOf, NoFollowUps;
    var f', j := Perform(cfg, f, s), s.job;
    var cmd := f.jobs[j].cmd;
    var cmds := CommandsOf(Mine(f.records, i));
    var (v, out) := Alone(cfg, m, cmds);
    var x := ReactionOf(cfg, f.memory, f.jobs[j]);
    MineAreReplies(f.records, i);
    AloneOneMore(cfg, m, cmds, cmd, i);
    MineOneMore(f.records, f'.records[|f.records|], i);
    ReplyWritesOwn(cfg, cmd, f.jobs[j].campaign + Scope(f.memory, i));
    forall k: nat | Pending(f', k, i) ensures k == j {
      assert !Pending(f, k, i);
    }
    if Clean(f', i) {
      assert !Pending(f', j, i);
    }
  }

  lemma StepKeepsAsAlone(cfg: Config, f: Floor, s: Step, m: Memory, i: nat, interviews: set<nat>)
    requires Enabled(f, s, interviews) && Tidy(f, m, interviews) && AsAlone(cfg, f, m, i) && NoFollowUps(cfg)
    requires Reads(f, s, i) ==> Clean(f, i)
    ensures AsAlone(cfg, Perform(cfg, f, s), m, i)
  {
    hide AsAlone, Tidy, Perform;
    if Reads(f, s, i) {
      ReadKeeps(cfg, f, s, m, i, interviews);
    } else if s.Work? && Pending(f, s.job, i) && f.jobs[s.job].before == [] {
      WriteKeeps(cfg, f, s, m, i, interviews);
    } else {
      OtherStepKeeps(cfg, f, s, m, i, interviews);
    }
  }

  lemma {:induction false} RunKeepsAsAlone(cfg: Config, f: Floor, steps: seq<Step>, m: Memory, i: nat,
                                           interviews: set<nat>)
    requires Runs(cfg, f, steps, interviews) && CleanReads(cfg, f, steps, i) && NoFollowUps(cfg)
    requires Tidy(f, m, interviews) && AsAlone(cfg, f, m, i)
    ensures Tidy(PerformAll(cfg, f, steps), m, interviews) && AsAlone(cfg, PerformAll(cfg, f, steps), m, i)
    decreases |steps|
  {
    hide Tidy, AsAlone, Perform, Enabled, NoFollowUps;
    if steps != [] {
      TidyStep(cfg, f, steps[0], m, interviews);
      StepKeepsAsAlone(cfg, f, steps[0], m, i, interviews);
      RunKeepsAsAlone(cfg, Perform(cfg, f, steps[0]), steps[1..], m, i, interviews);
    }
  }

  /** Non-interference with any number of replies in flight: as long as no reply to an interview reads its memory
      between another one's read and write - above all, with one reply in flight for each interview - everything
      its replies append and answer, and its memory, are what they would be handled alone, one whole reply after
      another; and no campaign's memory changes. */
  lemma OverlappingInterviewsDoNotInterfere(cfg: Config, m: Memory, steps: seq<Step>, i: nat, interviews: set<nat>)
    requires NoFollowUps(cfg) && Runs(cfg, Opening(m), steps, interviews) && CleanReads(cfg, Opening(m), steps, i)
    ensures var end := PerformAll(cfg, Opening(m), steps);
            var (v, out) := Alone(cfg, m, CommandsOf(Mine(end.records, i)));
            && Mine(end.records, i) == out
            && (Clean(end, i) ==> Scope(end.memory, i) == Scope(v.memory, i))
            && forall k | k !in interviews :: Scope(end.memory, k) == Scope(m, k)
  {
    assert CommandsOf([]) == [];
    RunKeepsAsAlone(cfg, Opening(m), steps, m, i, interviews);
  }

  // ---------------------------------------------------------------- the log

  function EntriesOf(log: seq<Entry>, j: nat): seq<Event> {
    if log == [] then []
    else EntriesOf(log[..|log| - 1], j) + if log[|log| - 1].job == j then [log[|log| - 1].event] else []
  }

  function Left(f: Floor, j: nat): seq<Event> {
    if j in f.jobs && f.jobs[j].Working? then f.jobs[j].before + f.jobs[j].after else []
  }

  /** A reply's events are in the log, in their order, but for those it still has to append. */
  ghost predicate Accounted(f: Floor, r: Record) {
    && r.job in f.started && (r.job in f.jobs ==> f.jobs[r.job].Working?)
    && EntriesOf(f.log, r.job) + Left(f, r.job) == r.served.events
  }

  ghost predicate Logged(f: Floor) {
    && (forall r | r in f.records :: Accounted(f, r))
    && (forall j | j in f.jobs :: j in f.started)
    && (forall e | e in f.log :: e.job in f.started && (e.job in f.jobs ==> f.jobs[e.job].Working?))
  }

  lemma EntriesOneMore(log: seq<Entry>, e: Entry, j: nat)
    ensures EntriesOf(log + [e], j) == EntriesOf(log, j) + if e.job == j then [e.event] else []
  {
    assert (log + [e])[..|log|] == log;
  }

  lemma {:induction false} NoEntries(log: seq<Entry>, j: nat)
    requires forall e | e in log :: e.job != j
    ensures EntriesOf(log, j) == []
  {
    if log != [] {
      assert log[|log| - 1] in log && forall e | e in log[..|log| - 1] :: e in log;
      NoEntries(log[..|log| - 1], j);
    }
  }

  lemma ReadIsLogged(cfg: Config, f: Floor, s: Step, interviews: set<nat>)
    requires s.ReadInterview? && Enabled(f, s, interviews) && Logged(f)
    ensures Logged(Perform(cfg, f, s))
  {
    hide ReactionOf, EntriesOf;
    var f' := Perform(cfg, f, s);
    NoEntries(f.log, s.job);
    forall r | r in f'.records ensures Accounted(f', r) {
      if r in f.records {
        assert Accounted(f, r) && r.job != s.job;
      } else {
        var x := ReactionOf(cfg, f.memory, f.jobs[s.job]);
        assert [] + (x.before + x.after) == x.before + x.after;
      }
    }
  }

  lemma AppendIsLogged(f: Floor, f': Floor, j: nat, e: Event)
    requires Logged(f) && j in f.jobs && f.jobs[j].Working? && Left(f, j) == [e] + Left(f', j)
    requires f'.records == f.records && f'.started == f.started && f'.log == f.log + [Entry(j, e)]
    requires f'.jobs.Keys == f.jobs.Keys && f'.jobs[j].Working? && forall k | k in f.jobs && k != j :: f'.jobs[k] == f.jobs[k]
    ensures Logged(f')
  {
    hide EntriesOf, Accounted, Left;
    forall r | r in f'.records ensures Accounted(f', r) {
      AppendIsAccounted(f, f', j, e, r);
    }
  }

  lemma AppendIsAccounted(f: Floor, f': Floor, j: nat, e: Event, r: Record)
    requires Accounted(f, r) && j in f.jobs && Left(f, j) == [e] + Left(f', j)
    requires f'.started == f.started && f'.log == f.log + [Entry(j, e)]
    requires f'.jobs.Keys == f.jobs.Keys && f'.jobs[j].Working? && forall k | k in f.jobs && k != j :: f'.jobs[k] == f.jobs[k]
    ensures Accounted(f', r)
  {
    hide EntriesOf;
    EntriesOneMore(f.log, Entry(j, e), r.job);
    if r.job == j {
      assert EntriesOf(f.log, j) + ([e] + Left(f', j)) == EntriesOf(f.log, j) + [e] + Left(f', j);
    } else {
      assert Left(f', r.job) == Left(f, r.job);
    }
  }

  lemma WorkIsLogged(cfg: Config, f: Floor, s: Step, interviews: set<nat>)
    requires s.Work? && Enabled(f, s, interviews) && Logged(f)
    ensures Logged(Perform(cfg, f, s))
  {
    hide EntriesOf;
    var f', b := Perform(cfg, f, s), f.jobs[s.job];
    if b.before != [] {
      assert b.before + b.after == [b.before[0]] + (b.before[1..] + b.after);
      AppendIsLogged(f, f', s.job, b.before[0]);
    } else if b.write.Some? && b.cmd.interview.Some? {
      forall r | r in f'.records ensures Accounted(f', r) {
        assert Accounted(f, r);
      }
    } else if b.after != [] {
      assert b.before + b.after == [b.after[0]] + (b.before + b.after[1..]);
      AppendIsLogged(f, f', s.job, b.after[0]);
    }
  }

  lemma StepIsLogged(cfg: Config, f: Floor, s: Step, interviews: set<nat>)
    requires Enabled(f, s, interviews) && Logged(f)
    ensures Logged(Perform(cfg, f, s))
  {
    hide EntriesOf, ReactionOf;
    if s.ReadInterview? {
      ReadIsLogged(cfg, f, s, interviews);
    } else if s.Work? {
      WorkIsLogged(cfg, f, s, interviews);
    } else {
      var f' := Perform(cfg, f, s);
      forall r | r in f'.records ensures Accounted(f', r) {
        assert Accounted(f, r);
      }
    }
  }

  /** Nothing is lost, repeated or reordered: at every moment, each reply's entries in the log are its events, but
      for those it has yet to append. */
  lemma {:induction false} LogHoldsEveryReply(cfg: Config, f: Floor, steps: seq<Step>, interviews: set<nat>)
    requires Runs(cfg, f, steps, interviews) && Logged(f)
    ensures Logged(PerformAll(cfg, f, steps))
    decreases |steps|
  {
    hide Logged, Perform, Enabled;
    if steps != [] {
      StepIsLogged(cfg, f, steps[0], interviews);
      LogHoldsEveryReply(cfg, Perform(cfg, f, steps[0]), steps[1..], interviews);
    }
  }

  lemma OpeningIsLogged(m: Memory)
    ensures Logged(Opening(m))
  {
  }

  // ---------------------------------------------------------------- overlapping replies to one interview

  const HISTORY := "interview_history"

  /** The number of turns remembered. */
  function TurnsIn(ctx: Context): nat {
    var n := Amount(ctx, HISTORY).Floor;
    if n < 0 then 0 else n
  }

  /** The interviewer as far as numbering goes: it numbers its two turns on from the history it was given, and hands
      back the history with both. */
  ghost predicate Numbers(a: Agent) {
    forall cmd, ctx | IsReply(cmd) ::
      && a(cmd, ctx).Some?
      && var r, n := a(cmd, ctx).value, TurnsIn(ctx);
         && r.delta == map[HISTORY := Num((n + 2) as real)]
         && |r.events| >= 1 && r.events[0].TurnRecorded? && r.events[0].order == n + 1
  }

  /** The number of a reply's first turn, behind whatever the policies reported. */
  function FirstOrder(events: seq<Event>): int {
    if events == [] then 0 else if events[0].TurnRecorded? then events[0].order else FirstOrder(events[1..])
  }

  ghost predicate Numbering(cfg: Config) {
    InterviewerAgent in cfg.agents && Numbers(cfg.agents[InterviewerAgent])
  }

  lemma {:induction false} FirstOrderSkips(pre: seq<Event>, rest: seq<Event>)
    requires forall e | e in pre :: !e.TurnRecorded?
    ensures FirstOrder(pre + rest) == FirstOrder(rest)
  {
    if pre == [] {
      assert pre + rest == rest;
    } else {
      assert pre[0] in pre && (pre + rest)[1..] == pre[1..] + rest && (pre + rest)[0] == pre[0];
      FirstOrderSkips(pre[1..], rest);
    }
  }

  lemma PoliciesRecordNoTurns(cfg: Config, cmd: Command, ctx: Context)
    ensures forall e | e in AllowAll(cfg, cmd, ctx).events :: !e.TurnRecorded?
  {
    var b := BudgetPolicy(cfg, cmd, ctx);
    assert forall e | e in b.events :: !e.TurnRecorded?;
    if b.allowed {
      var p := PIIPolicy(cfg, b.command);
      assert forall e | e in p.events :: !e.TurnRecorded?;
      assert forall e | e in EscalationPolicy(cfg, p.command).events :: !e.TurnRecorded?;
    }
  }

  lemma NumberedReaction(cfg: Config, cmd: Command, ctx: Context)
    requires Numbering(cfg) && IsReply(cmd) && React(cfg, cmd, ctx).response.Ok?
    ensures var x := React(cfg, cmd, ctx);
            && FirstOrder(x.before + x.after) == TurnsIn(ctx) + 1
            && x.write == Some(Write(cmd.interview.value, map[HISTORY := Num((TurnsIn(ctx) + 2) as real)]))
  {
    hide AllowAll;
    var pre := AllowAll(cfg, cmd, ctx);
    StackKeepsScopes(cfg, cmd, ctx);
    PoliciesRecordNoTurns(cfg, cmd, ctx);
    var x := React(cfg, cmd, ctx);
    var r := cfg.agents[InterviewerAgent](pre.command, ctx).value;
    FirstOrderSkips(pre.events, r.events + x.after);
    assert x.before + x.after == pre.events + (r.events + x.after);
    assert (r.events + x.after)[0] == r.events[0];
    assert HISTORY in r.delta && TargetScope(pre.command, r.events) == cmd.interview;
  }

  /** As long as every read was clean: the replies so far are numbered in steps of two, and the memory holds, or is
      about to hold, the turns of all of them. */
  ghost predicate Counted(f: Floor, i: nat, h: nat) {
    var mine := Mine(f.records, i);
    && (forall k | 0 <= k < |mine| :: FirstOrder(mine[k].events) == h + 2 * k + 1)
    && (forall j, k | Pending(f, j, i) && Pending(f, k, i) :: j == k)
    && (Clean(f, i) ==> TurnsIn(Scope(f.memory, i)) == h + 2 * |mine|)
    && (forall j | Pending(f, j, i) ::
          && |mine| > 0 && TurnsIn(Scope(f.memory, i)) == h + 2 * (|mine| - 1)
          && f.jobs[j].write.value == map[HISTORY := Num((h + 2 * |mine|) as real)])
  }

  /** Campaign memory does not hold a history of its own. */
  ghost predicate NoSharedHistory(m: Memory, interviews: set<nat>) {
    forall k | k !in interviews :: HISTORY !in Scope(m, k)
  }

  lemma TurnsOfScope(campaign: Context, own: Context)
    requires HISTORY !in campaign
    ensures TurnsIn(campaign + own) == TurnsIn(own)
  {
  }

  lemma TurnsWritten(own: Context, n: nat)
    ensures TurnsIn(own + map[HISTORY := Num(n as real)]) == n
  {
  }

  lemma CountedOther(cfg: Config, f: Floor, s: Step, i: nat, h: nat, interviews: set<nat>)
    requires Enabled(f, s, interviews) && !Reads(f, s, i) && Counted(f, i, h) && forall j | j in f.jobs :: j in f.started
    ensures Counted(Perform(cfg, f, s), i, h) && Mine(Perform(cfg, f, s).records, i) == Mine(f.records, i)
  {
    hide ReactionOf, FirstOrder, TurnsIn, Mine;
    var f' := Perform(cfg, f, s);
    if s.Work? && Pending(f, s.job, i) && f.jobs[s.job].before == [] {
      TurnsWritten(Scope(f.memory, i), h + 2 * |Mine(f.records, i)|);
      forall j: nat ensures !Pending(f', j, i) {
        assert Pending(f', j, i) ==> Pending(f, j, i);
      }
    } else {
      OtherStep(cfg, f, s, i, interviews);
      assert Clean(f', i) == Clean(f, i);
    }
  }

  /** A reply numbers its turns from what it reads: right if the read is clean, the same as the last if it is not. */
  lemma CountedRead(cfg: Config, f: Floor, s: Step, m: Memory, i: nat, h: nat, interviews: set<nat>)
    requires Enabled(f, s, interviews) && Reads(f, s, i) && Counted(f, i, h) && Tidy(f, m, interviews)
    requires Numbering(cfg) && NoSharedHistory(m, interviews)
    requires ReactionOf(cfg, f.memory, f.jobs[s.job]).response.Ok?
    ensures var f', n := Perform(cfg, f, s), |Mine(f.records, i)|;
            && |Mine(f'.records, i)| == n + 1 && Mine(f'.records, i)[..n] == Mine(f.records, i)
            && (Clean(f, i) ==> Counted(f', i, h))
            && (!Clean(f, i) ==> FirstOrder(Mine(f'.records, i)[n].events) != h + 2 * n + 1)
  {
    hide React, FirstOrder, TurnsIn, Mine;
    var f', job := Perform(cfg, f, s), f.jobs[s.job];
    var ctx := job.campaign + Scope(f.memory, i);
    MineOneMore(f.records, f'.records[|f.records|], i);
    TurnsOfScope(job.campaign, Scope(f.memory, i));
    NumberedReaction(cfg, job.cmd, ctx);
    if Clean(f, i) {
      forall k: nat | Pending(f', k, i) ensures k == s.job {
        assert !Pending(f, k, i);
      }
      assert Pending(f', s.job, i);
    }
  }

  lemma {:induction false} RecordsGrow(cfg: Config, f: Floor, steps: seq<Step>, i: nat, interviews: set<nat>)
    requires Runs(cfg, f, steps, interviews)
    ensures Mine(f.records, i) <= Mine(PerformAll(cfg, f, steps).records, i)
    decreases |steps|
  {
    hide Perform, Mine, Enabled;
    if steps != [] {
      RecordsStep(cfg, f, steps[0], i, interviews);
      RecordsGrow(cfg, Perform(cfg, f, steps[0]), steps[1..], i, interviews);
    }
  }

  lemma {:induction false} NumberedFrom(cfg: Config, f: Floor, steps: seq<Step>, m: Memory, i: nat, h: nat,
                                        interviews: set<nat>)
    requires Runs(cfg, f, steps, interviews) && Counted(f, i, h) && Tidy(f, m, interviews)
    requires Numbering(cfg) && NoSharedHistory(m, interviews)
    requires forall r | r in Mine(PerformAll(cfg, f, steps).records, i) :: r.response.Ok?
    ensures var mine := Mine(PerformAll(cfg, f, steps).records, i);
            (forall k | 0 <= k < |mine| :: FirstOrder(mine[k].events) == h + 2 * k + 1) <==> CleanReads(cfg, f, steps, i)
    decreases |steps|
  {
    hide Tidy, Perform, Enabled, Numbering, NoSharedHistory, FirstOrder, Mine, ReactionOf, Counted, Clean, Reads;
    if steps == [] {
      CountedNumbers(f, i, h);
    } else {
      var f' := Perform(cfg, f, steps[0]);
      TidyStep(cfg, f, steps[0], m, interviews);
      RecordsGrow(cfg, f', steps[1..], i, interviews);
      assert PerformAll(cfg, f, steps) == PerformAll(cfg, f', steps[1..]);
      assert CleanReads(cfg, f, steps, i) <==> ((Reads(f, steps[0], i) ==> Clean(f, i)) && CleanReads(cfg, f', steps[1..], i));
      if !Reads(f, steps[0], i) {
        TidyStarted(f, m, interviews);
        CountedOther(cfg, f, steps[0], i, h, interviews);
        NumberedFrom(cfg, f', steps[1..], m, i, h, interviews);
      } else {
        ReadIsRecorded(cfg, f, steps[0], i, interviews);
        CountedRead(cfg, f, steps[0], m, i, h, interviews);
        if Clean(f, i) {
          NumberedFrom(cfg, f', steps[1..], m, i, h, interviews);
        } else {
          var mine, n := Mine(PerformAll(cfg, f, steps).records, i), |Mine(f.records, i)|;
          assert mine[n] == Mine(f'.records, i)[n];
        }
      }
    }
  }

  lemma TidyStarted(f: Floor, m: Memory, interviews: set<nat>)
    requires Tidy(f, m, interviews)
    ensures forall j | j in f.jobs :: j in f.started
  {
  }

  lemma CountedNumbers(f: Floor, i: nat, h: nat)
    requires Counted(f, i, h)
    ensures forall k | 0 <= k < |Mine(f.records, i)| :: FirstOrder(Mine(f.records, i)[k].events) == h + 2 * k + 1
  {
  }

  lemma ReadIsRecorded(cfg: Config, f: Floor, s: Step, i: nat, interviews: set<nat>)
    requires Enabled(f, s, interviews) && Reads(f, s, i)
    ensures var f', x := Perform(cfg, f, s), ReactionOf(cfg, f.memory, f.jobs[s.job]);
            && |Mine(f'.records, i)| == |Mine(f.records, i)| + 1
            && Mine(f'.records, i)[|Mine(f.records, i)|].response == x.response
            && Mine(f'.records, i)[|Mine(f.records, i)|] in Mine(f'.records, i)
  {
    hide React;
    MineOneMore(f.records, Perform(cfg, f, s).records[|f.records|], i);
  }

  /** The exact condition for replies to one interview that overlap: their turns are numbered consecutively if and
      only if no reply read the interview's memory between another one's read and write. */
  lemma TurnsAreConsecutiveIff(cfg: Config, m: Memory, steps: seq<Step>, i: nat, interviews: set<nat>)
    requires Runs(cfg, Opening(m), steps, interviews) && Numbering(cfg) && NoSharedHistory(m, interviews)
    requires forall r | r in Mine(PerformAll(cfg, Opening(m), steps).records, i) :: r.response.Ok?
    ensures var mine, h := Mine(PerformAll(cfg, Opening(m), steps).records, i), TurnsIn(Scope(m, i));
            (forall k | 0 <= k < |mine| :: FirstOrder(mine[k].events) == h + 2 * k + 1) <==> CleanReads(cfg, Opening(m), steps, i)
  {
    NumberedFrom(cfg, Opening(m), steps, m, i, TurnsIn(Scope(m, i)), interviews);
  }

  // ---------------------------------------------------------------- a lost update

  lemma {:induction false} ThenRuns(cfg: Config, f: Floor, xs: seq<Step>, ys: seq<Step>, interviews: set<nat>)
    requires Runs(cfg, f, xs, interviews) && Runs(cfg, PerformAll(cfg, f, xs), ys, interviews)
    ensures Runs(cfg, f, xs + ys, interviews) && PerformAll(cfg, f, xs + ys) == PerformAll(cfg, PerformAll(cfg, f, xs), ys)
    decreases |xs|
  {
    hide Perform, Enabled;
    if xs == [] {
      assert xs + ys == ys;
    } else {
      assert (xs + ys)[1..] == xs[1..] + ys;
      ThenRuns(cfg, Perform(cfg, f, xs[0]), xs[1..], ys, interviews);
    }
  }

  function Written(m: Memory, b: Job): Memory
    requires b.Working?
  {
    if b.write.Some? && b.cmd.interview.Some? then
      m[b.cmd.interview.value := Scope(m, b.cmd.interview.value) + b.write.value]
    else m
  }

  lemma WorkOnce(cfg: Config, f: Floor, j: nat, interviews: set<nat>)
    requires j in f.jobs && f.jobs[j].Working? && f.jobs[j].cmd.interview.Some? && !Done(f.jobs[j])
    ensures var f' := Perform(cfg, f, Work(j));
            && j in f'.jobs && f'.jobs[j].Working? && f'.jobs[j].cmd == f.jobs[j].cmd
            && Size(f'.jobs[j]) < Size(f.jobs[j]) && Written(f'.memory, f'.jobs[j]) == Written(f.memory, f.jobs[j])
            && f'.records == f.records && f'.jobs - {j} == f.jobs - {j}
  {
  }

  function Size(b: Job): nat
    requires b.Working?
  {
    |b.before| + |b.after| + if b.write.Some? then 1 else 0
  }

  /** A reply that has read its context runs to its end without interruption. */
  lemma {:induction false} RunToEnd(cfg: Config, f: Floor, j: nat, interviews: set<nat>) returns (steps: seq<Step>)
    requires j in f.jobs && f.jobs[j].Working? && f.jobs[j].cmd.interview.Some?
    ensures Runs(cfg, f, steps, interviews)
    ensures var end := PerformAll(cfg, f, steps);
            end.memory == Written(f.memory, f.jobs[j]) && end.jobs == f.jobs - {j} && end.records == f.records
    decreases Size(f.jobs[j])
  {
    hide Written;
    if Done(f.jobs[j]) {
      steps := [Finish(j)];
      assert steps[1..] == [];
      NothingToWrite(f.memory, f.jobs[j]);
    } else {
      var f' := Perform(cfg, f, Work(j));
      WorkOnce(cfg, f, j, interviews);
      hide Perform;
      var rest := RunToEnd(cfg, f', j, interviews);
      steps := [Work(j)] + rest;
      assert steps[1..] == rest;
    }
  }

  lemma NothingToWrite(m: Memory, b: Job)
    requires b.Working? && Done(b)
    ensures Written(m, b) == m
  {
  }

  /** Two replies to one interview read its memory before either writes it. */
  lemma BothRead(cfg: Config, m: Memory, a: Command, b: Command, interviews: set<nat>) returns (steps: seq<Step>)
    requires IsReply(a) && IsReply(b) && a.interview == b.interview && a.interview.value in interviews
    requires a.campaign.value !in interviews && b.campaign.value !in interviews
    ensures Runs(cfg, Opening(m), steps, interviews)
    ensures var f := PerformAll(cfg, Opening(m), steps);
            var x := React(cfg, a, Scope(m, a.campaign.value) + Scope(m, a.interview.value));
            var y := React(cfg, b, Scope(m, b.campaign.value) + Scope(m, b.interview.value));
            && f.memory == m
            && f.jobs == map[0 := Working(a, x.before, if x.write.Some? then Some(x.write.value.delta) else None, x.after),
                             1 := Working(b, y.before, if y.write.Some? then Some(y.write.value.delta) else None, y.after)]
            && f.records == [Record(0, Served(a, x.before + x.after, x.response)),
                             Record(1, Served(b, y.before + y.after, y.response))]
  {
    hide React, Perform, Enabled, PerformAll, Runs;
    var f0 := Opening(m);
    var xs, ys := [Start(0, a), ReadCampaign(0)], [Start(1, b), ReadCampaign(1)];
    StartAndRead(cfg, f0, 0, a, interviews);
    var f1 := PerformAll(cfg, f0, xs);
    StartAndRead(cfg, f1, 1, b, interviews);
    ThenRuns(cfg, f0, xs, ys, interviews);
    var f2 := PerformAll(cfg, f1, ys);
    assert f2.jobs == map[0 := HasCampaign(a, Scope(m, a.campaign.value)), 1 := HasCampaign(b, Scope(m, b.campaign.value))];
    ReadBoth(cfg, f2, interviews);
    ThenRuns(cfg, f0, xs + ys, [ReadInterview(0), ReadInterview(1)], interviews);
    steps := xs + ys + [ReadInterview(0), ReadInterview(1)];
  }

  lemma StartAndRead(cfg: Config, f: Floor, j: nat, cmd: Command, interviews: set<nat>)
    requires Enabled(f, Start(j, cmd), interviews)
    ensures Runs(cfg, f, [Start(j, cmd), ReadCampaign(j)], interviews)
    ensures PerformAll(cfg, f, [Start(j, cmd), ReadCampaign(j)])
            == f.(started := f.started + {j}, jobs := f.jobs[j := HasCampaign(cmd, Scope(f.memory, cmd.campaign.value))])
  {
    BothRunTwo(cfg, f, Start(j, cmd), ReadCampaign(j), interviews);
  }

  lemma ReadBoth(cfg: Config, f: Floor, interviews: set<nat>)
    requires f.jobs.Keys == {0, 1} && f.jobs[0].HasCampaign? && f.jobs[1].HasCampaign? && f.records == []
    ensures Runs(cfg, f, [ReadInterview(0), ReadInterview(1)], interviews)
    ensures var x, y := ReactionOf(cfg, f.memory, f.jobs[0]), ReactionOf(cfg, f.memory, f.jobs[1]);
            var end := PerformAll(cfg, f, [ReadInterview(0), ReadInterview(1)]);
            && end.memory == f.memory
            && end.jobs == map[0 := Working(f.jobs[0].cmd, x.before, if x.write.Some? then Some(x.write.value.delta)
                   else None, x.after),
                               1 := Working(f.jobs[1].cmd, y.before, if y.write.Some? then Some(y.write.value.delta)
                                   else None, y.after)]
            && end.records == [Record(0, Served(f.jobs[0].cmd, x.before + x.after, x.response)),
                               Record(1, Served(f.jobs[1].cmd, y.before + y.after, y.response))]
  {
    hide ReactionOf;
    BothRunTwo(cfg, f, ReadInterview(0), ReadInterview(1), interviews);
  }

  lemma BothRunTwo(cfg: Config, f: Floor, s: Step, t: Step, interviews: set<nat>)
    ensures Runs(cfg, f, [s, t], interviews) <==> Enabled(f, s, interviews) && Enabled(Perform(cfg, f, s), t, interviews)
    ensures PerformAll(cfg, f, [s, t]) == Perform(cfg, Perform(cfg, f, s), t)
  {
    hide Perform, Enabled;
    assert [s, t][1..] == [t] && [t][1..] == [];
    assert PerformAll(cfg, Perform(cfg, f, s), [t]) == PerformAll(cfg, Perform(cfg, Perform(cfg, f, s), t), []);
    assert Runs(cfg, Perform(cfg, f, s), [t], interviews) <==> Enabled(Perform(cfg, f, s), t, interviews);
  }

  /** What overlapping costs, for any configuration that numbers turns and lets both replies pass: both number their
      turns alike, and of the two updates of the history one is lost. */
  lemma OverlapLosesAnUpdate(cfg: Config, m: Memory, a: Command, b: Command, interviews: set<nat>)
      returns (steps: seq<Step>)
    requires IsReply(a) && IsReply(b) && a.interview == b.interview && a.interview.value in interviews
    requires a.campaign.value !in interviews && b.campaign.value !in interviews
    requires Numbering(cfg) && NoSharedHistory(m, interviews)
    requires React(cfg, a, Scope(m, a.campaign.value) + Scope(m, a.interview.value)).response.Ok?
    requires React(cfg, b, Scope(m, b.campaign.value) + Scope(m, b.interview.value)).response.Ok?
    ensures Runs(cfg, Opening(m), steps, interviews)
    ensures var end, i := PerformAll(cfg, Opening(m), steps), a.interview.value;
            var h := TurnsIn(Scope(m, i));
            && end.jobs == map[] && |end.records| == 2
            && FirstOrder(end.records[0].served.events) == FirstOrder(end.records[1].served.events) == h + 1
            && TurnsIn(Scope(end.memory, i)) == h + 2
  {
    hide React, TurnsIn, FirstOrder, Perform, Enabled, NoSharedHistory;
    var i := a.interview.value;
    var h := TurnsIn(Scope(m, i));
    var xs := BothRead(cfg, m, a, b, interviews);
    var f := PerformAll(cfg, Opening(m), xs);
    SharedTurns(m, a.campaign.value, i, interviews);
    SharedTurns(m, b.campaign.value, i, interviews);
    NumberedReaction(cfg, a, Scope(m, a.campaign.value) + Scope(m, i));
    NumberedReaction(cfg, b, Scope(m, b.campaign.value) + Scope(m, i));
    var ys := RunToEnd(cfg, f, 0, interviews);
    ThenRuns(cfg, Opening(m), xs, ys, interviews);
    var g := PerformAll(cfg, f, ys);
    assert 1 in g.jobs && g.jobs[1] == f.jobs[1];
    var zs := RunToEnd(cfg, g, 1, interviews);
    ThenRuns(cfg, Opening(m), xs + ys, zs, interviews);
    steps := xs + ys + zs;
    TurnsWritten(Scope(g.memory, i), h + 2);
  }

  lemma SharedTurns(m: Memory, campaign: nat, i: nat, interviews: set<nat>)
    requires NoSharedHistory(m, interviews) && campaign !in interviews
    ensures TurnsIn(Scope(m, campaign) + Scope(m, i)) == TurnsIn(Scope(m, i))
  {
    TurnsOfScope(Scope(m, campaign), Scope(m, i));
  }
}
