/** Usage metering: one usage record per interview, and metered overage beyond the plan's quota.

    A completion is recorded by one statement and decided by later ones; with several API processes - or several
    tasks of one - the two steps of different completions interleave. The gateway's answer is a parameter. */
module Billing {
  import opened Wrappers

  datatype PlanKind = Free | Pro | Team

  datatype Plan = Plan(kind: PlanKind, quota: int, allowsOverage: bool, overageCents: nat)

  datatype Status = Active | Trialing | PastDue | Canceled | Unpaid | IncompleteExpired

  datatype Account = Account(plan: PlanKind, status: Status, customer: Option<string>, quotaOverride: Option<int>)

  datatype QualityConfig = QualityConfig(minDuration: int, minCoverage: real)

  datatype Config = Config(quality: QualityConfig, quotaOverrides: map<PlanKind, int>)

  datatype Channel = WebText | WebVoice | PhoneOutbound | PhoneInbound | Unknown

  datatype Completion = Completion(
    org: nat, campaign: nat, interview: nat, duration: int, coverage: real, channel: Channel, period: nat)

  datatype Usage = Usage(org: nat, campaign: nat, period: nat, qualified: bool, duration: int, voice: int, reported: bool)

  /** How a report to the payment gateway ended. */
  datatype Gateway = Fails | ReportsOnly | ReportsAndMarks

  /** The tables, and the interviews the gateway has accepted a report for, in order. */
  datatype Books = Books(accounts: map<nat, Account>, usage: map<nat, Usage>, reports: seq<nat>)

  const FRESH_ACCOUNT := Account(Free, Active, None, None)

  // ---------------------------------------------------------------- plans

  function Catalog(kind: PlanKind): Plan {
    match kind
    case Free => Plan(Free, 20, false, 0)
    case Pro => Plan(Pro, 200, true, 50)
    case Team => Plan(Team, 1000, true, 35)
  }

  function PlanFor(cfg: Config, kind: PlanKind): Plan {
    var base := Catalog(kind);
    if kind in cfg.quotaOverrides then base.(quota := cfg.quotaOverrides[kind]) else base
  }

  predicate Lapsed(s: Status) { s.Canceled? || s.Unpaid? || s.IncompleteExpired? }

  /** A paid plan permits overage exactly while its subscription stands; once lapsed, the account is on the free
      tier's limits, and an override agreed for it no longer counts. */
  function ResolvePlan(cfg: Config, a: Account): (p: Plan)
    ensures p.allowsOverage <==> !a.plan.Free? && !Lapsed(a.status)
    ensures p.kind == if Lapsed(a.status) then Free else a.plan
    ensures !a.plan.Free? && Lapsed(a.status) ==> p == PlanFor(cfg, Free)
    ensures !(!a.plan.Free? && Lapsed(a.status)) && a.quotaOverride.Some? ==> p.quota == a.quotaOverride.value
  {
    var base := PlanFor(cfg, a.plan);
    var plan := if a.quotaOverride.Some? then base.(quota := a.quotaOverride.value) else base;
    if !plan.kind.Free? && Lapsed(a.status) then PlanFor(cfg, Free) else plan
  }

  /** The quota an account has: its own override, unless a paid plan has lapsed; else the configured one of the plan
      it is then on, else that plan's own. */
  lemma QuotaIs(cfg: Config, a: Account)
    ensures var lapsed := a.plan != Free && a.status in {Canceled, Unpaid, IncompleteExpired};
            var kind := if lapsed then Free else a.plan;
            ResolvePlan(cfg, a).quota
            == if !lapsed && a.quotaOverride.Some? then a.quotaOverride.value
               else if kind in cfg.quotaOverrides then cfg.quotaOverrides[kind]
               else if kind.Free? then 20 else if kind.Pro? then 200 else 1000
  {
  }

  function AccountOf(b: Books, org: nat): Account { if org in b.accounts then b.accounts[org] else FRESH_ACCOUNT }

  function Qualifies(cfg: Config, c: Completion): bool {
    c.duration >= cfg.quality.minDuration && c.coverage >= cfg.quality.minCoverage
  }

  function VoiceSeconds(c: Completion): int { if c.channel.WebText? || c.channel.Unknown? then 0 else c.duration }

  // ---------------------------------------------------------------- the tables

  /** The qualified interviews of an organisation in a period. */
  function Qualified(usage: map<nat, Usage>, org: nat, period: nat): set<nat> {
    set i | i in usage && usage[i].org == org && usage[i].period == period && usage[i].qualified
  }

  function InsertUsage(cfg: Config, b: Books, c: Completion): Books {
    if c.interview in b.usage then b
    else b.(usage := b.usage[c.interview := Usage(c.org, c.campaign, c.period, Qualifies(cfg, c), c.duration,
                                                  VoiceSeconds(c), false)])
  }

  function CreateAccount(b: Books, org: nat): Books {
    if org in b.accounts then b else b.(accounts := b.accounts[org := FRESH_ACCOUNT])
  }

  /** Whether this organisation's next report is due. */
  predicate Due(cfg: Config, b: Books, org: nat, period: nat) {
    var a := AccountOf(b, org);
    && |Qualified(b.usage, org, period)| > ResolvePlan(cfg, a).quota
    && ResolvePlan(cfg, a).allowsOverage && a.customer.Some? && a.customer.value != ""
  }

  function Mark(b: Books, i: nat): Books {
    if i in b.usage then b.(usage := b.usage[i := b.usage[i].(reported := true)]) else b
  }

  /** The decision for a newly recorded qualified interview. */
  function Decide(cfg: Config, b: Books, i: nat, g: Gateway): Books
    requires i in b.usage
  {
    var org, period := b.usage[i].org, b.usage[i].period;
    var b1 := CreateAccount(b, org);
    if !Due(cfg, b1, org, period) || g.Fails? then b1
    else
      var b2 := b1.(reports := b1.reports + [i]);
      if g.ReportsAndMarks? then Mark(b2, i) else b2
  }

  /** The whole of one completion. */
  function Complete(cfg: Config, b: Books, c: Completion, g: Gateway): Books {
    var inserted := c.interview !in b.usage;
    var b1 := InsertUsage(cfg, b, c);
    if !inserted || !Qualifies(cfg, c) then b1 else Decide(cfg, b1, c.interview, g)
  }

  class BillingService {
    const cfg: Config
    var accounts: map<nat, Account>
    var usage: map<nat, Usage>
    var reports: seq<nat>

    ghost function Contents(): Books
      reads this
    {
      Books(accounts, usage, reports)
    }

    constructor (cfg: Config)
      ensures this.cfg == cfg && Contents() == Books(map[], map[], [])
    {
      this.cfg, accounts, usage, reports := cfg, map[], map[], [];
    }

    method GetOrCreateAccount(org: nat) returns (a: Account)
      modifies this`accounts
      ensures Contents() == CreateAccount(old(Contents()), org) && a == AccountOf(old(Contents()), org)
    {
      if org !in accounts {
        accounts := accounts[org := FRESH_ACCOUNT];
      }
      a := accounts[org];
    }

    /** Inserts unless the interview already has a record. */
    method RecordInterview(c: Completion) returns (inserted: bool)
      modifies this`usage
      ensures Contents() == InsertUsage(cfg, old(Contents()), c) && (inserted <==> c.interview !in old(usage))
    {
      inserted := c.interview !in usage;
      if inserted {
        usage := usage[c.interview := Usage(c.org, c.campaign, c.period, Qualifies(cfg, c), c.duration, VoiceSeconds(c), false)];
      }
    }

    method PeriodUsage(org: nat, period: nat) returns (qualified: nat)
      ensures qualified == |Qualified(usage, org, period)|
    {
      qualified := |Qualified(usage, org, period)|;
    }

    method MarkReported(i: nat)
      modifies this`usage
      ensures Contents() == Mark(old(Contents()), i)
    {
      if i in usage {
        usage := usage[i := usage[i].(reported := true)];
      }
    }

    /** May the organisation start another interview? It may while within its quota, or on metered overage. */
    method CheckQuota(org: nat, period: nat) returns (allowed: bool, used: nat)
      modifies this`accounts
      ensures Contents() == CreateAccount(old(Contents()), org)
      ensures used == |Qualified(usage, org, period)|
      ensures allowed <==> used < ResolvePlan(cfg, AccountOf(Contents(), org)).quota || ResolvePlan(cfg,
                  AccountOf(Contents(), org)).allowsOverage
    {
      var account := GetOrCreateAccount(org);
      var plan := ResolvePlan(cfg, account);
      used := PeriodUsage(org, period);
      allowed := used < plan.quota || plan.allowsOverage;
    }

    /** Meters one completed interview. */
    method RecordCompletion(c: Completion, g: Gateway)
      modifies this
      ensures Contents() == Complete(cfg, old(Contents()), c, g)
    {
      var inserted := RecordInterview(c);
      if !inserted || !Qualifies(cfg, c) {
        return;
      }
      var account := GetOrCreateAccount(c.org);
      var plan := ResolvePlan(cfg, account);
      var used := PeriodUsage(c.org, c.period);
      if used > plan.quota && plan.allowsOverage && account.customer.Some? && account.customer.value != "" {
        if !g.Fails? {
          reports := reports + [c.interview];
          if g.ReportsAndMarks? {
            MarkReported(c.interview);
          }
        }
      }
    }
  }

  /** A replay - the same interview again, with the same or any other data - changes nothing. */
  lemma ReplayChangesNothing(cfg: Config, b: Books, c: Completion, g: Gateway, c': Completion, g': Gateway)
    requires c'.interview == c.interview
    ensures Complete(cfg, Complete(cfg, b, c, g), c', g') == Complete(cfg, b, c, g)
  {
  }

  // ---------------------------------------------------------------- interleaved completions

  /** Insert and decide are steps of their own; a process may die between the two. */
  datatype Act = Insert(c: Completion) | Settle(interview: nat, g: Gateway) | Die(interview: nat)

  /** The books, and the interviews inserted but not yet decided. */
  datatype Shop = Shop(books: Books, pending: set<nat>)

  ghost predicate Enabled(s: Shop, a: Act) {
    match a
    case Insert(_) => true
    case Settle(i, _) => i in s.pending && i in s.books.usage
    case Die(i) => i in s.pending
  }

  function Perform(cfg: Config, s: Shop, a: Act): Shop {
    match a
    case Insert(c) =>
      if c.interview in s.books.usage then s
      else Shop(InsertUsage(cfg, s.books, c), if Qualifies(cfg, c) then s.pending + {c.interview} else s.pending)
    case Settle(i, g) =>
      if i in s.books.usage then Shop(Decide(cfg, s.books, i, g), s.pending - {i}) else s
    case Die(i) => s.(pending := s.pending - {i})
  }

  function PerformAll(cfg: Config, s: Shop, acts: seq<Act>): Shop
    decreases |acts|
  {
    if acts == [] then s else PerformAll(cfg, Perform(cfg, s, acts[0]), acts[1..])
  }

  /** Every act happens where it can, and never more than `k` of this organisation's completions are in flight. */
  ghost predicate Runs(cfg: Config, s: Shop, acts: seq<Act>, org: nat, period: nat, k: nat)
    decreases |acts|
  {
    |InFlight(s, org, period)| <= k &&
    (acts == [] || (Enabled(s, acts[0]) && Runs(cfg, Perform(cfg, s, acts[0]), acts[1..], org, period, k)))
  }

  function InFlight(s: Shop, org: nat, period: nat): set<nat> {
    s.pending * Qualified(s.books.usage, org, period)
  }

  /** The reports made for an organisation in a period. */
  function Reported(b: Books, org: nat, period: nat): seq<nat> { ReportedIn(b.reports, b.usage, org, period) }

  function ReportedIn(reports: seq<nat>, usage: map<nat, Usage>, org: nat, period: nat): seq<nat> {
    if reports == [] then []
    else
      var i, before := reports[|reports| - 1], ReportedIn(reports[..|reports| - 1], usage, org, period);
      if i in usage && usage[i].org == org && usage[i].period == period then before + [i] else before
  }

  function NotNegative(n: int): nat { if n < 0 then 0 else n }

  /** The account is on overage, linked to a customer, and has this quota; a negative one counts as none. */
  predicate OnOverage(cfg: Config, b: Books, org: nat, quota: nat) {
    var a := AccountOf(b, org);
    ResolvePlan(cfg, a).allowsOverage && NotNegative(ResolvePlan(cfg, a).quota)
        == quota && a.customer.Some? && a.customer.value != ""
  }

  /** What has been reported against what is owed, with `k` completions in flight at most. */
  ghost predicate Metered(s: Shop, org: nat, period: nat, quota: nat, k: nat) {
    var q := |Qualified(s.books.usage, org, period)|;
    var r := |Reported(s.books, org, period)|;
    && (forall i | i in s.pending :: i in s.books.usage && s.books.usage[i].qualified)
    && (forall i | i in s.books.reports :: i in s.books.usage)
    && (q <= quota ==> r == 0)
    && (q > quota ==> r + |InFlight(s, org, period)| <= q - quota + k - 1)
  }

  lemma QualifiedInsert(cfg: Config, b: Books, c: Completion, org: nat, period: nat)
    requires c.interview !in b.usage
    ensures Qualified(InsertUsage(cfg, b, c).usage, org, period)
            == Qualified(b.usage, org, period) + if Qualifies(cfg, c) && c.org == org && c.period
                == period then {c.interview} else {}
    ensures c.interview !in Qualified(b.usage, org, period)
  {
  }

  lemma {:induction false} ReportedFrame(reports: seq<nat>, usage: map<nat, Usage>, usage': map<nat, Usage>, org: nat,
                                         period: nat)
    requires forall i | i in reports :: i in usage && i in usage' && usage[i].org == usage'[i].org && usage[i].period
                == usage'[i].period
    ensures ReportedIn(reports, usage, org, period) == ReportedIn(reports, usage', org, period)
  {
    if reports != [] {
      ReportedFrame(reports[..|reports| - 1], usage, usage', org, period);
    }
  }

  lemma MarkKeeps(b: Books, i: nat, org: nat, period: nat)
    ensures Mark(b, i).usage.Keys == b.usage.Keys && Mark(b, i).reports == b.reports && Mark(b, i).accounts == b.accounts
    ensures forall j | j in b.usage :: Mark(b, i).usage[j].org == b.usage[j].org && Mark(b, i).usage[j].period
                == b.usage[j].period && Mark(b, i).usage[j].qualified == b.usage[j].qualified
    ensures Qualified(Mark(b, i).usage, org, period) == Qualified(b.usage, org, period)
  {
  }

  /** What a decision does to the counts: at most one report, for its own organisation and period. */
  lemma DecideCounts(cfg: Config, b: Books, i: nat, g: Gateway, org: nat, period: nat, quota: nat)
    requires i in b.usage && b.usage[i].qualified && OnOverage(cfg, b, org, quota) && forall j | j in b.reports :: j in b.usage
    ensures var b' := Decide(cfg, b, i, g);
            && Qualified(b'.usage, org, period) == Qualified(b.usage, org, period)
            && b'.usage.Keys == b.usage.Keys && (forall j | j in b.usage :: b'.usage[j].qualified == b.usage[j].qualified)
            && (forall j | j in b'.reports :: j in b'.usage)
            && OnOverage(cfg, b', org, quota)
            && |Reported(b', org, period)| == |Reported(b, org, period)|
               + if b.usage[i].org == org && b.usage[i].period
                   == period && |Qualified(b.usage, org, period)| > quota && !g.Fails? then 1 else 0
  {
    hide Qualified;
    var o, p := b.usage[i].org, b.usage[i].period;
    var b1 := CreateAccount(b, o);
    var b2 := b1.(reports := b1.reports + [i]);
    assert AccountOf(b1, org) == AccountOf(b, org);
    assert b2.reports[..|b2.reports| - 1] == b1.reports;
    OwnCounts(b, i);
    MarkKeeps(b2, i, org, period);
    ReportedFrame(b2.reports, b2.usage, Mark(b2, i).usage, org, period);
    ReportedFrame(b1.reports, b1.usage, Mark(b2, i).usage, org, period);
  }

  lemma OwnCounts(b: Books, i: nat)
    requires i in b.usage && b.usage[i].qualified
    ensures |Qualified(b.usage, b.usage[i].org, b.usage[i].period)| > 0
  {
    assert i in Qualified(b.usage, b.usage[i].org, b.usage[i].period);
  }

  /** What an insert does to the counts. */
  lemma InsertCounts(cfg: Config, s: Shop, c: Completion, org: nat, period: nat)
    requires c.interview !in s.books.usage && forall i | i in s.books.reports :: i in s.books.usage
    ensures var s' := Perform(cfg, s, Insert(c));
            var own := if Qualifies(cfg, c) && c.org == org && c.period == period then 1 else 0;
            && |Qualified(s'.books.usage, org, period)| == |Qualified(s.books.usage, org, period)| + own
            && Reported(s'.books, org, period) == Reported(s.books, org, period)
            && |InFlight(s', org, period)| >= |InFlight(s, org, period)|
            && (own == 0 || |InFlight(s', org, period)| == |InFlight(s, org, period)| + 1)
            && (own == 1 || |InFlight(s', org, period)| == |InFlight(s, org, period)|)
  {
    hide Qualified;
    var s' := Perform(cfg, s, Insert(c));
    QualifiedInsert(cfg, s.books, c, org, period);
    ReportedFrame(s.books.reports, s.books.usage, s'.books.usage, org, period);
    if Qualifies(cfg, c) && c.org == org && c.period == period {
      assert InFlight(s', org, period) == InFlight(s, org, period) + {c.interview};
    } else {
      assert InFlight(s', org, period) == InFlight(s, org, period);
    }
  }

  lemma InsertMeters(cfg: Config, s: Shop, c: Completion, org: nat, period: nat, quota: nat, k: nat)
    requires Metered(s, org, period, quota, k) && |InFlight(Perform(cfg, s, Insert(c)), org, period)| <= k
    ensures Metered(Perform(cfg, s, Insert(c)), org, period, quota, k)
  {
    hide Qualified, Reported, InFlight, InsertUsage;
    if c.interview !in s.books.usage {
      InsertCounts(cfg, s, c, org, period);
      InsertKnows(cfg, s, c);
    }
  }

  lemma InsertKnows(cfg: Config, s: Shop, c: Completion)
    requires forall i | i in s.pending :: i in s.books.usage && s.books.usage[i].qualified
    requires forall i | i in s.books.reports :: i in s.books.usage
    ensures var s' := Perform(cfg, s, Insert(c));
            && (forall i | i in s'.pending :: i in s'.books.usage && s'.books.usage[i].qualified)
            && (forall i | i in s'.books.reports :: i in s'.books.usage)
  {
  }

  lemma InFlightLoses(s: Shop, i: nat, usage: map<nat, Usage>, org: nat, period: nat)
    requires i in s.pending && Qualified(usage, org, period) == Qualified(s.books.usage, org, period)
    ensures (s.pending - {i}) * Qualified(usage, org, period) == InFlight(s, org, period) - {i}
    ensures |InFlight(s, org, period) - {i}|
                == |InFlight(s, org, period)| - if i in Qualified(s.books.usage, org, period) then 1 else 0
  {
  }

  lemma StepMeters(cfg: Config, s: Shop, a: Act, org: nat, period: nat, quota: nat, k: nat)
    requires Enabled(s, a) && Metered(s, org, period, quota, k) && OnOverage(cfg, s.books, org, quota)
    requires |InFlight(Perform(cfg, s, a), org, period)| <= k
    ensures Metered(Perform(cfg, s, a), org, period, quota, k) && OnOverage(cfg, Perform(cfg, s, a).books, org, quota)
  {
    hide Qualified, Reported, ResolvePlan, Decide;
    match a
    case Insert(c) => InsertMeters(cfg, s, c, org, period, quota, k);
    case Settle(i, g) =>
      DecideCounts(cfg, s.books, i, g, org, period, quota);
      InFlightLoses(s, i, Decide(cfg, s.books, i, g).usage, org, period);
      PendingIsOwn(s, i, org, period);
    case Die(i) =>
      InFlightLoses(s, i, s.books.usage, org, period);
  }

  lemma PendingIsOwn(s: Shop, i: nat, org: nat, period: nat)
    requires i in s.pending && i in s.books.usage && s.books.usage[i].qualified
    ensures i in Qualified(s.books.usage, org, period) <==> s.books.usage[i].org == org && s.books.usage[i].period == period
  {
  }

  function OpenWith(accounts: map<nat, Account>): Shop { Shop(Books(accounts, map[], []), {}) }

  lemma {:induction false} RunMeters(cfg: Config, s: Shop, acts: seq<Act>, org: nat, period: nat, quota: nat, k: nat)
    requires Runs(cfg, s, acts, org, period, k) && Metered(s, org, period, quota, k) && OnOverage(cfg, s.books, org, quota)
    ensures Metered(PerformAll(cfg, s, acts), org, period, quota, k)
    decreases |acts|
  {
    hide Metered, OnOverage, Perform, Enabled;
    if acts != [] {
      StepMeters(cfg, s, acts[0], org, period, quota, k);
      RunMeters(cfg, Perform(cfg, s, acts[0]), acts[1..], org, period, quota, k);
    }
  }

  lemma OpeningMeters(accounts: map<nat, Account>, org: nat, period: nat, quota: nat, k: nat)
    ensures Metered(OpenWith(accounts), org, period, quota, k)
    ensures OwesNothing(OpenWith(accounts), org, period, quota)
    ensures Qualified(OpenWith(accounts).books.usage, org, period) == {} && InFlight(OpenWith(accounts), org, period) == {}
  {
  }

  /** Over-reporting is bounded by concurrency: with at most `k` completions in flight, whatever the gateway answers
      and whichever processes die, an organisation is never reported more than `k - 1` interviews beyond what it owes. */
  lemma NeverFarOver(cfg: Config, accounts: map<nat, Account>, acts: seq<Act>, org: nat, period: nat, quota: nat,
                     k: nat)
    requires k > 0 && OnOverage(cfg, OpenWith(accounts).books, org, quota) && Runs(cfg, OpenWith(accounts), acts, org, period, k)
    ensures var b := PerformAll(cfg, OpenWith(accounts), acts).books;
            var owed := |Qualified(b.usage, org, period)| - quota;
            |Reported(b, org, period)| <= if owed > 0 then owed + k - 1 else 0
  {
    OpeningMeters(accounts, org, period, quota, k);
    RunMeters(cfg, OpenWith(accounts), acts, org, period, quota, k);
  }

  /** The gateway accepts every report and no process dies. */
  predicate Reliable(acts: seq<Act>) {
    forall i | 0 <= i < |acts| :: !acts[i].Die? && (acts[i].Settle? ==> !acts[i].g.Fails?)
  }

  ghost predicate OwesNothing(s: Shop, org: nat, period: nat, quota: nat) {
    && (forall i | i in s.pending :: i in s.books.usage && s.books.usage[i].qualified)
    && (forall i | i in s.books.reports :: i in s.books.usage)
    && |Reported(s.books, org, period)| + |InFlight(s, org, period)| >= |Qualified(s.books.usage, org, period)| - quota
  }

  lemma StepOwesNothing(cfg: Config, s: Shop, a: Act, org: nat, period: nat, quota: nat)
    requires Enabled(s, a) && !a.Die? && (a.Settle? ==> !a.g.Fails?)
    requires OwesNothing(s, org, period, quota) && OnOverage(cfg, s.books, org, quota)
    ensures OwesNothing(Perform(cfg, s, a), org, period, quota) && OnOverage(cfg, Perform(cfg, s, a).books, org, quota)
  {
    hide Qualified, Reported, ResolvePlan, Decide, InFlight, InsertUsage;
    match a
    case Insert(c) =>
      if c.interview !in s.books.usage {
        InsertCounts(cfg, s, c, org, period);
        InsertKnows(cfg, s, c);
        InsertKeepsAccounts(cfg, s.books, c);
      }
    case Settle(i, g) =>
      DecideCounts(cfg, s.books, i, g, org, period, quota);
      InFlightLoses(s, i, Decide(cfg, s.books, i, g).usage, org, period);
      InFlightIs(Perform(cfg, s, a), org, period);
      PendingIsOwn(s, i, org, period);
  }

  lemma InsertKeepsAccounts(cfg: Config, b: Books, c: Completion)
    ensures InsertUsage(cfg, b, c).accounts == b.accounts
  {
  }

  lemma InFlightIs(s: Shop, org: nat, period: nat)
    ensures InFlight(s, org, period) == s.pending * Qualified(s.books.usage, org, period)
  {
  }

  ghost predicate Happens(cfg: Config, s: Shop, acts: seq<Act>)
    decreases |acts|
  {
    acts == [] || (Enabled(s, acts[0]) && Happens(cfg, Perform(cfg, s, acts[0]), acts[1..]))
  }

  lemma {:induction false} RunOwesNothing(cfg: Config, s: Shop, acts: seq<Act>, org: nat, period: nat, quota: nat)
    requires Happens(cfg, s, acts) && Reliable(acts) && OwesNothing(s, org, period, quota) && OnOverage(cfg, s.books, org, quota)
    ensures OwesNothing(PerformAll(cfg, s, acts), org, period, quota)
    decreases |acts|
  {
    hide OwesNothing, OnOverage, Perform, Enabled;
    if acts != [] {
      StepOwesNothing(cfg, s, acts[0], org, period, quota);
      assert forall i | 0 <= i < |acts[1..]| :: acts[1..][i] == acts[i + 1];
      RunOwesNothing(cfg, Perform(cfg, s, acts[0]), acts[1..], org, period, quota);
    }
  }

  /** Nothing owed is left unreported, in any interleaving, once every completion is decided - provided the gateway
      never fails and no process dies in between. */
  lemma NothingIsForgotten(cfg: Config, accounts: map<nat, Account>, acts: seq<Act>, org: nat, period: nat, quota: nat)
    requires OnOverage(cfg, OpenWith(accounts).books, org, quota) && Happens(cfg, OpenWith(accounts), acts) && Reliable(acts)
    requires PerformAll(cfg, OpenWith(accounts), acts).pending == {}
    ensures var b := PerformAll(cfg, OpenWith(accounts), acts).books;
            |Reported(b, org, period)| >= |Qualified(b.usage, org, period)| - quota
  {
    OpeningMeters(accounts, org, period, quota, 1);
    RunOwesNothing(cfg, OpenWith(accounts), acts, org, period, quota);
  }

  // ---------------------------------------------------------------- one completion after another

  datatype Job = Job(c: Completion, g: Gateway)

  function CompleteAll(cfg: Config, b: Books, jobs: seq<Job>): Books
    decreases |jobs|
  {
    if jobs == [] then b else CompleteAll(cfg, Complete(cfg, b, jobs[0].c, jobs[0].g), jobs[1..])
  }

  lemma CompleteIsTwoSteps(cfg: Config, b: Books, j: Job)
    ensures var s := Perform(cfg, Shop(b, {}), Insert(j.c));
            Shop(Complete(cfg, b, j.c, j.g), {}) ==
              if s.pending == {} then s else Perform(cfg, s, Settle(j.c.interview, j.g))
    ensures Perform(cfg, Shop(b, {}), Insert(j.c)).pending <= {j.c.interview}
    ensures j.c.interview in Perform(cfg, Shop(b, {}), Insert(j.c)).books.usage
  {
    hide Decide, Qualifies;
    var s := Perform(cfg, Shop(b, {}), Insert(j.c));
    assert {} + {j.c.interview} == {j.c.interview};
    assert {j.c.interview} - {j.c.interview} == {};
  }

  lemma SmallInFlight(s: Shop, x: nat, org: nat, period: nat)
    requires s.pending <= {x}
    ensures |InFlight(s, org, period)| <= 1
  {
    assert InFlight(s, org, period) <= {x};
    assert InFlight(s, org, period) == {} || InFlight(s, org, period) == {x};
  }

  lemma CompleteMeters(cfg: Config, b: Books, j: Job, org: nat, period: nat, quota: nat)
    requires Metered(Shop(b, {}), org, period, quota, 1) && OnOverage(cfg, b, org, quota)
    ensures var b' := Complete(cfg, b, j.c, j.g);
            && Metered(Shop(b', {}), org, period, quota, 1) && OnOverage(cfg, b', org, quota)
            && (OwesNothing(Shop(b, {}), org, period, quota) && !j.g.Fails? ==> OwesNothing(Shop(b', {}), org, period, quota))
  {
    hide Metered, OwesNothing, OnOverage, Perform, Complete, InFlight;
    var s0 := Shop(b, {});
    var s := Perform(cfg, s0, Insert(j.c));
    CompleteIsTwoSteps(cfg, b, j);
    SmallInFlight(s, j.c.interview, org, period);
    StepMeters(cfg, s0, Insert(j.c), org, period, quota, 1);
    if OwesNothing(s0, org, period, quota) {
      StepOwesNothing(cfg, s0, Insert(j.c), org, period, quota);
    }
    if s.pending != {} {
      var s' := Perform(cfg, s, Settle(j.c.interview, j.g));
      SmallInFlight(s', j.c.interview, org, period);
      StepMeters(cfg, s, Settle(j.c.interview, j.g), org, period, quota, 1);
      if OwesNothing(s0, org, period, quota) && !j.g.Fails? {
        StepOwesNothing(cfg, s, Settle(j.c.interview, j.g), org, period, quota);
      }
    }
  }

  lemma {:induction false} AllMeter(cfg: Config, b: Books, jobs: seq<Job>, org: nat, period: nat, quota: nat)
    requires Metered(Shop(b, {}), org, period, quota, 1) && OnOverage(cfg, b, org, quota)
    ensures var b' := CompleteAll(cfg, b, jobs);
            && Metered(Shop(b', {}), org, period, quota, 1)
            && (OwesNothing(Shop(b, {}), org, period, quota) && (forall j | j in jobs :: !j.g.Fails?) ==>
                   OwesNothing(Shop(b', {}), org, period, quota))
    decreases |jobs|
  {
    hide Metered, OwesNothing, OnOverage, Complete;
    if jobs != [] {
      CompleteMeters(cfg, b, jobs[0], org, period, quota);
      assert jobs[0] in jobs && forall j | j in jobs[1..] :: j in jobs;
      AllMeter(cfg, Complete(cfg, b, jobs[0].c, jobs[0].g), jobs[1..], org, period, quota);
    }
  }

  /** Conservation: completions one after another, with duplicates, in any order and for any organisations, never
      report more than the qualified interviews beyond the quota - and report exactly those when the gateway never
      fails. */
  lemma MeteringIsConserved(cfg: Config, accounts: map<nat, Account>, jobs: seq<Job>, org: nat, period: nat, quota: nat)
    requires OnOverage(cfg, OpenWith(accounts).books, org, quota)
    ensures var b := CompleteAll(cfg, OpenWith(accounts).books, jobs);
            var owed := NotNegative(|Qualified(b.usage, org, period)| - quota);
            && |Reported(b, org, period)| <= owed
            && ((forall j | j in jobs :: !j.g.Fails?) ==> |Reported(b, org, period)| == owed)
  {
    OpeningMeters(accounts, org, period, quota, 1);
    var b := CompleteAll(cfg, OpenWith(accounts).books, jobs);
    AllMeter(cfg, OpenWith(accounts).books, jobs, org, period, quota);
    assert InFlight(Shop(b, {}), org, period) == {};
  }

  /** The first completion of an interview. */
  function FirstOf(jobs: seq<Job>, i: nat): Option<Completion> {
    if jobs == [] then None
    else if jobs[0].c.interview == i then Some(jobs[0].c)
    else FirstOf(jobs[1..], i)
  }

  /** What a completion is recorded as: qualified if and only if both its duration and its coverage reach their
      minimum, and with its duration as voice time on a voice channel. */
  predicate RecordsFirst(cfg: Config, u: Usage, c: Completion) {
    && u.org == c.org && u.campaign == c.campaign && u.period == c.period && u.duration == c.duration
    && (u.qualified <==> c.duration >= cfg.quality.minDuration && c.coverage >= cfg.quality.minCoverage)
    && u.voice == if c.channel in {WebVoice, PhoneOutbound, PhoneInbound} then c.duration else 0
  }

  lemma CompleteRecords(cfg: Config, b: Books, j: Job, i: nat)
    ensures var b' := Complete(cfg, b, j.c, j.g);
            && (i in b'.usage <==> i in b.usage || i == j.c.interview)
            && (i in b.usage ==> i in b'.usage && b'.usage[i].(reported := false) == b.usage[i].(reported := false))
            && (i !in b.usage && i == j.c.interview ==> i in b'.usage && RecordsFirst(cfg, b'.usage[i], j.c))
  {
    hide Due;
  }

  /** The table holds one record for each distinct interview, that of its first completion. */
  lemma {:induction false} FirstCompletionWins(cfg: Config, b: Books, jobs: seq<Job>, i: nat)
    ensures var u := CompleteAll(cfg, b, jobs).usage;
            && (i in u <==> i in b.usage || FirstOf(jobs, i).Some?)
            && (i in b.usage ==> i in u && u[i].(reported := false) == b.usage[i].(reported := false))
            && (i !in b.usage && FirstOf(jobs, i).Some? ==> i in u && RecordsFirst(cfg, u[i], FirstOf(jobs, i).value))
    decreases |jobs|
  {
    hide Complete;
    if jobs != [] {
      CompleteRecords(cfg, b, jobs[0], i);
      FirstCompletionWins(cfg, Complete(cfg, b, jobs[0].c, jobs[0].g), jobs[1..], i);
    }
  }

  /** A paid plan that has not lapsed, and somebody to bill. */
  predicate Billable(a: Account) {
    a.plan in {Pro, Team} && a.status in {Active, Trialing, PastDue} && a.customer.Some? && a.customer.value != ""
  }

  /** In any interleaving, no interview of an organisation that is not billable is ever reported. */
  lemma {:induction false} OnlyBillableIsReported(cfg: Config, s: Shop, acts: seq<Act>, org: nat, i: nat)
    requires !Billable(AccountOf(s.books, org))
    ensures var b, b' := s.books, PerformAll(cfg, s, acts).books;
            && (i in b.usage ==> i in b'.usage && b'.usage[i].org == b.usage[i].org)
            && (i in b'.usage && b'.usage[i].org == org ==> multiset(b'.reports)[i] == multiset(b.reports)[i])
    decreases |acts|
  {
    hide Perform, AccountOf, Billable;
    if acts != [] {
      UnbilledStep(cfg, s, acts[0], org, i);
      OnlyBillableIsReported(cfg, Perform(cfg, s, acts[0]), acts[1..], org, i);
    }
  }

  lemma UnbilledStep(cfg: Config, s: Shop, a: Act, org: nat, i: nat)
    requires !Billable(AccountOf(s.books, org))
    ensures var b, b' := s.books, Perform(cfg, s, a).books;
            && !Billable(AccountOf(b', org))
            && (i in b.usage ==> i in b'.usage && b'.usage[i].org == b.usage[i].org)
            && (i !in b.usage || b.usage[i].org == org ==> multiset(b'.reports)[i] == multiset(b.reports)[i])
  {
    hide Qualified, PlanFor, Due;
    if a.Settle? && a.interview in s.books.usage {
      NotDue(cfg, CreateAccount(s.books, s.books.usage[a.interview].org), org, s.books.usage[a.interview].period);
    }
  }

  lemma NotDue(cfg: Config, b: Books, org: nat, period: nat)
    requires !Billable(AccountOf(b, org))
    ensures !Due(cfg, b, org, period)
  {
    hide Qualified, PlanFor;
  }

  // ---------------------------------------------------------------- exactly how many, with completions in flight

  /** Everything pending is recorded and qualified, and everything reported is recorded. */
  ghost predicate Known(s: Shop) {
    && (forall i | i in s.pending :: i in s.books.usage && s.books.usage[i].qualified)
    && (forall i | i in s.books.reports :: i in s.books.usage)
  }

  /** The three counts that matter to an organisation: recorded, reported and in flight. */
  datatype Counts = Counts(qualified: nat, reported: nat, inFlight: nat)

  ghost function CountsOf(s: Shop, org: nat, period: nat): Counts {
    Counts(|Qualified(s.books.usage, org, period)|, |Reported(s.books, org, period)|, |InFlight(s, org, period)|)
  }

  /** A reliable act leaves the counts alone, records one more completion, or settles one of them. */
  lemma StepCounts(cfg: Config, s: Shop, a: Act, org: nat, period: nat, quota: nat)
    requires Enabled(s, a) && !a.Die? && (a.Settle? ==> !a.g.Fails?)
    requires Known(s) && OnOverage(cfg, s.books, org, quota)
    ensures var s' := Perform(cfg, s, a);
            var x, y := CountsOf(s, org, period), CountsOf(s', org, period);
            && Known(s') && OnOverage(cfg, s'.books, org, quota)
            && (|| y == x
                || y == x.(qualified := x.qualified + 1, inFlight := x.inFlight + 1)
                || (x.inFlight > 0 && y == Counts(x.qualified, x.reported + if x.qualified > quota then 1
                       else 0, x.inFlight - 1)))
  {
    hide Qualified, Reported, ResolvePlan, Decide, InFlight, InsertUsage;
    match a
    case Insert(c) =>
      if c.interview !in s.books.usage {
        InsertCounts(cfg, s, c, org, period);
        InsertKnows(cfg, s, c);
        InsertKeepsAccounts(cfg, s.books, c);
      }
    case Settle(i, g) =>
      DecideCounts(cfg, s.books, i, g, org, period, quota);
      InFlightLoses(s, i, Decide(cfg, s.books, i, g).usage, org, period);
      InFlightIs(Perform(cfg, s, a), org, period);
      PendingIsOwn(s, i, org, period);
  }

  /** The completions in flight just before the one that takes the count beyond the quota is recorded. */
  ghost function InFlightAtQuota(cfg: Config, s: Shop, acts: seq<Act>, org: nat, period: nat, quota: nat): nat
    decreases |acts|
  {
    if acts == [] then 0
    else
      var s' := Perform(cfg, s, acts[0]);
      if CountsOf(s, org, period).qualified <= quota < CountsOf(s', org, period).qualified then CountsOf(s, org, period).inFlight
      else InFlightAtQuota(cfg, s', acts[1..], org, period, quota)
  }

  lemma {:induction false} AfterQuota(cfg: Config, s: Shop, acts: seq<Act>, org: nat, period: nat, quota: nat,
                                      early: nat)
    requires Happens(cfg, s, acts) && Reliable(acts) && Known(s) && OnOverage(cfg, s.books, org, quota)
    requires var x := CountsOf(s, org, period); x.qualified > quota && x.reported + x.inFlight == x.qualified - quota + early
    ensures var x := CountsOf(PerformAll(cfg, s, acts), org, period);
            x.qualified > quota && x.reported + x.inFlight == x.qualified - quota + early
    decreases |acts|
  {
    hide CountsOf, Known, OnOverage, Perform, Enabled;
    if acts != [] {
      StepCounts(cfg, s, acts[0], org, period, quota);
      assert forall i | 0 <= i < |acts[1..]| :: acts[1..][i] == acts[i + 1];
      AfterQuota(cfg, Perform(cfg, s, acts[0]), acts[1..], org, period, quota, early);
    }
  }

  lemma {:induction false} UpToQuota(cfg: Config, s: Shop, acts: seq<Act>, org: nat, period: nat, quota: nat)
    requires Happens(cfg, s, acts) && Reliable(acts) && Known(s) && OnOverage(cfg, s.books, org, quota)
    requires CountsOf(s, org, period).qualified <= quota && CountsOf(s, org, period).reported == 0
    ensures var x := CountsOf(PerformAll(cfg, s, acts), org, period);
            if x.qualified <= quota then x.reported == 0
            else x.reported + x.inFlight == x.qualified - quota + InFlightAtQuota(cfg, s, acts, org, period, quota)
    decreases |acts|
  {
    hide CountsOf, Known, OnOverage, Perform, Enabled;
    if acts != [] {
      var s' := Perform(cfg, s, acts[0]);
      StepCounts(cfg, s, acts[0], org, period, quota);
      assert forall i | 0 <= i < |acts[1..]| :: acts[1..][i] == acts[i + 1];
      if CountsOf(s', org, period).qualified > quota {
        AfterQuota(cfg, s', acts[1..], org, period, quota, CountsOf(s, org, period).inFlight);
      } else {
        UpToQuota(cfg, s', acts[1..], org, period, quota);
      }
    }
  }

  /** The exact number: in any interleaving, with a gateway that never fails, no process dying and everything
      decided, an organisation beyond its quota is reported what it owes and one more for each completion that was
      in flight when the quota was crossed. */
  lemma ReportsExactly(cfg: Config, accounts: map<nat, Account>, acts: seq<Act>, org: nat, period: nat, quota: nat)
    requires OnOverage(cfg, OpenWith(accounts).books, org, quota) && Happens(cfg, OpenWith(accounts), acts) && Reliable(acts)
    requires PerformAll(cfg, OpenWith(accounts), acts).pending == {}
    ensures var b := PerformAll(cfg, OpenWith(accounts), acts).books;
            var owed := |Qualified(b.usage, org, period)| - quota;
            var early := InFlightAtQuota(cfg, OpenWith(accounts), acts, org, period, quota);
            |Reported(b, org, period)| == if owed > 0 then owed + early else 0
  {
    var end := PerformAll(cfg, OpenWith(accounts), acts);
    OpeningMeters(accounts, org, period, quota, 1);
    NoReports(accounts, org, period);
    UpToQuota(cfg, OpenWith(accounts), acts, org, period, quota);
    assert InFlight(end, org, period) == {};
  }

  /** So metering is exact if and only if nothing was in flight at that moment - or the quota was never crossed. */
  lemma MeteringIsExactIff(cfg: Config, accounts: map<nat, Account>, acts: seq<Act>, org: nat, period: nat, quota: nat)
    requires OnOverage(cfg, OpenWith(accounts).books, org, quota) && Happens(cfg, OpenWith(accounts), acts) && Reliable(acts)
    requires PerformAll(cfg, OpenWith(accounts), acts).pending == {}
    ensures var b := PerformAll(cfg, OpenWith(accounts), acts).books;
            var owed := NotNegative(|Qualified(b.usage, org, period)| - quota);
            |Reported(b, org, period)| == owed
            <==> (owed > 0 ==> InFlightAtQuota(cfg, OpenWith(accounts), acts, org, period, quota) == 0)
  {
    hide Qualified, Reported, InFlightAtQuota, OnOverage;
    ReportsExactly(cfg, accounts, acts, org, period, quota);
  }

  lemma NoReports(accounts: map<nat, Account>, org: nat, period: nat)
    ensures Reported(OpenWith(accounts).books, org, period) == [] && Known(OpenWith(accounts))
  {
  }

  // ---------------------------------------------------------------- the bound is attained

  function Between(lo: nat, hi: nat): (r: set<nat>)
    ensures forall i :: i in r <==> lo <= i < hi
    ensures |r| == if lo <= hi then hi - lo else 0
  {
    if lo >= hi then {} else Between(lo, hi - 1) + {hi - 1}
  }

  predicate OwnOnly(usage: map<nat, Usage>, c: Completion, n: nat) {
    && usage.Keys == Between(0, n)
    && forall i | i in usage :: usage[i].org == c.org && usage[i].period == c.period && usage[i].qualified
  }

  /** The first `n` interviews of one organisation and period are recorded, those before `lo` are decided, and `r`
      of them are reported. */
  ghost predicate Stands(cfg: Config, s: Shop, c: Completion, quota: nat, lo: nat, n: nat, r: nat) {
    && lo <= n && Qualifies(cfg, c) && Known(s) && OnOverage(cfg, s.books, c.org, quota)
    && OwnOnly(s.books.usage, c, n) && s.pending == Between(lo, n)
    && |Reported(s.books, c.org, c.period)| == r
  }

  lemma StandsCounts(cfg: Config, s: Shop, c: Completion, quota: nat, lo: nat, n: nat, r: nat)
    requires Stands(cfg, s, c, quota, lo, n, r)
    ensures CountsOf(s, c.org, c.period) == Counts(n, r, n - lo)
  {
    assert Qualified(s.books.usage, c.org, c.period) == Between(0, n);
    assert InFlight(s, c.org, c.period) == Between(lo, n);
  }

  lemma RecordNext(cfg: Config, s: Shop, c: Completion, quota: nat, lo: nat, n: nat, r: nat)
    requires Stands(cfg, s, c, quota, lo, n, r)
    ensures Stands(cfg, Perform(cfg, s, Insert(c.(interview := n))), c, quota, lo, n + 1, r)
  {
    hide Qualified, Reported, ResolvePlan, InFlight, InsertUsage;
    var next := c.(interview := n);
    InsertCounts(cfg, s, next, c.org, c.period);
    InsertKnows(cfg, s, next);
    InsertKeepsAccounts(cfg, s.books, next);
    InsertStores(cfg, s, next);
    assert Between(0, n + 1) == Between(0, n) + {n} && Between(lo, n + 1) == Between(lo, n) + {n};
  }

  lemma SettleFirst(cfg: Config, s: Shop, c: Completion, quota: nat, lo: nat, n: nat, r: nat)
    requires Stands(cfg, s, c, quota, lo, n, r) && lo < n
    ensures Enabled(s, Settle(lo, ReportsAndMarks))
    ensures Stands(cfg, Perform(cfg, s, Settle(lo, ReportsAndMarks)), c, quota, lo + 1, n, r + if n > quota then 1 else 0)
  {
    hide Qualified, Reported, OnOverage, Decide, InFlight, Qualifies, Between, OwnOnly, ResolvePlan;
    StandsInFlight(cfg, s, c, quota, lo, n, r);
    OwnAt(s.books.usage, c, n, lo);
    DecideCounts(cfg, s.books, lo, ReportsAndMarks, c.org, c.period, quota);
    DecideOwners(cfg, s.books, lo, ReportsAndMarks, c, n);
    assert lo in Between(lo, n);
    OneLess(lo, n);
  }

  lemma OneLess(lo: nat, n: nat)
    ensures Between(lo, n) - {lo} == Between(lo + 1, n)
  {
    hide Between;
  }

  lemma ReliableTogether(xs: seq<Act>, ys: seq<Act>)
    requires Reliable(xs) && Reliable(ys)
    ensures Reliable(xs + ys)
  {
  }

  lemma {:induction false} Follows(cfg: Config, s: Shop, xs: seq<Act>, ys: seq<Act>, org: nat, period: nat, k: nat)
    requires Runs(cfg, s, xs, org, period, k) && Runs(cfg, PerformAll(cfg, s, xs), ys, org, period, k)
    ensures Runs(cfg, s, xs + ys, org, period, k)
    ensures PerformAll(cfg, s, xs + ys) == PerformAll(cfg, PerformAll(cfg, s, xs), ys)
    decreases |xs|
  {
    hide Perform, Enabled, InFlight;
    if xs == [] {
      assert xs + ys == ys;
    } else {
      assert (xs + ys)[1..] == xs[1..] + ys;
      Follows(cfg, Perform(cfg, s, xs[0]), xs[1..], ys, org, period, k);
    }
  }

  lemma StepThen(cfg: Config, s: Shop, a: Act, rest: seq<Act>, org: nat, period: nat, k: nat)
    requires Enabled(s, a) && |InFlight(s, org, period)| <= k && Runs(cfg, Perform(cfg, s, a), rest, org, period, k)
    requires !a.Die? && (a.Settle? ==> !a.g.Fails?) && Reliable(rest)
    ensures Runs(cfg, s, [a] + rest, org, period, k) && Reliable([a] + rest)
    ensures PerformAll(cfg, s, [a] + rest) == PerformAll(cfg, Perform(cfg, s, a), rest)
  {
    hide Perform, Enabled, InFlight;
    assert ([a] + rest)[1..] == rest;
  }

  lemma RunsOfNone(cfg: Config, s: Shop, org: nat, period: nat, k: nat)
    requires |InFlight(s, org, period)| <= k
    ensures Runs(cfg, s, [], org, period, k) && Reliable([]) && PerformAll(cfg, s, []) == s
  {
  }

  /** `m` completions recorded one after another, none decided. */
  lemma {:induction false} RecordMany(cfg: Config, s: Shop, c: Completion, quota: nat, lo: nat, n: nat, r: nat, m: nat,
                                      k: nat)
    returns (acts: seq<Act>)
    requires Stands(cfg, s, c, quota, lo, n, r) && n + m - lo <= k
    ensures Runs(cfg, s, acts, c.org, c.period, k) && Reliable(acts)
    ensures Stands(cfg, PerformAll(cfg, s, acts), c, quota, lo, n + m, r)
    decreases m
  {
    hide Stands, CountsOf, Perform, Runs, Reliable, InFlight, Qualified, Reported, PerformAll;
    StandsInFlight(cfg, s, c, quota, lo, n, r);
    if m == 0 {
      acts := [];
      RunsOfNone(cfg, s, c.org, c.period, k);
    } else {
      var a := Insert(c.(interview := n));
      RecordNext(cfg, s, c, quota, lo, n, r);
      var rest := RecordMany(cfg, Perform(cfg, s, a), c, quota, lo, n + 1, r, m - 1, k);
      acts := [a] + rest;
      StepThen(cfg, s, a, rest, c.org, c.period, k);
    }
  }

  lemma StandsInFlight(cfg: Config, s: Shop, c: Completion, quota: nat, lo: nat, n: nat, r: nat)
    requires Stands(cfg, s, c, quota, lo, n, r)
    ensures |InFlight(s, c.org, c.period)| == n - lo && |Qualified(s.books.usage, c.org, c.period)| == n
    ensures |Reported(s.books, c.org, c.period)| == r
  {
    StandsCounts(cfg, s, c, quota, lo, n, r);
  }

  /** All pending completions decided, one after another. */
  lemma {:induction false} SettleAll(cfg: Config, s: Shop, c: Completion, quota: nat, lo: nat, n: nat, r: nat, k: nat)
      returns (acts: seq<Act>)
    requires Stands(cfg, s, c, quota, lo, n, r) && n - lo <= k
    ensures Runs(cfg, s, acts, c.org, c.period, k) && Reliable(acts)
    ensures Stands(cfg, PerformAll(cfg, s, acts), c, quota, n, n, r + if n > quota then n - lo else 0)
    decreases n - lo
  {
    StandsOrdered(cfg, s, c, quota, lo, n, r);
    hide Stands, CountsOf, Perform, Runs, Reliable, InFlight, Qualified, Reported, PerformAll;
    StandsInFlight(cfg, s, c, quota, lo, n, r);
    if lo == n {
      acts := [];
      RunsOfNone(cfg, s, c.org, c.period, k);
    } else {
      var a := Settle(lo, ReportsAndMarks);
      SettleFirst(cfg, s, c, quota, lo, n, r);
      var rest := SettleAll(cfg, Perform(cfg, s, a), c, quota, lo + 1, n, r + if n > quota then 1 else 0, k);
      acts := [a] + rest;
      StepThen(cfg, s, a, rest, c.org, c.period, k);
    }
  }

  lemma StandsOrdered(cfg: Config, s: Shop, c: Completion, quota: nat, lo: nat, n: nat, r: nat)
    requires Stands(cfg, s, c, quota, lo, n, r)
    ensures lo <= n
  {
  }

  /** `m` more completions within the quota, each decided before the next is recorded. */
  lemma {:induction false} OneByOne(cfg: Config, s: Shop, c: Completion, quota: nat, n: nat, m: nat, k: nat)
      returns (acts: seq<Act>)
    requires Stands(cfg, s, c, quota, n, n, 0) && n + m <= quota && k > 0
    ensures Runs(cfg, s, acts, c.org, c.period, k) && Reliable(acts)
    ensures Stands(cfg, PerformAll(cfg, s, acts), c, quota, n + m, n + m, 0)
    decreases m
  {
    hide Stands, CountsOf, Perform, Runs, InFlight, Reliable, PerformAll;
    if m == 0 {
      acts := RecordMany(cfg, s, c, quota, n, n, 0, 0, k);
    } else {
      var xs := RecordMany(cfg, s, c, quota, n, n, 0, 1, k);
      var ys := SettleAll(cfg, PerformAll(cfg, s, xs), c, quota, n, n + 1, 0, k);
      Follows(cfg, s, xs, ys, c.org, c.period, k);
      var rest := OneByOne(cfg, PerformAll(cfg, s, xs + ys), c, quota, n + 1, m - 1, k);
      Follows(cfg, s, xs + ys, rest, c.org, c.period, k);
      ReliableTogether(xs, ys);
      ReliableTogether(xs + ys, rest);
      acts := xs + ys + rest;
    }
  }

  /** The bound of `NeverFarOver` is attained for every number in flight: `quota - (k - 1)` completions one after
      another, then `k` recorded before any of them is decided. One is owed, `k` are reported. */
  lemma BoundIsAttained(cfg: Config, c: Completion, quota: nat, k: nat) returns (acts: seq<Act>)
    requires Qualifies(cfg, c) && 0 < k <= quota + 1
    ensures var start := OpenWith(map[c.org := Account(Pro, Active, Some("cus"), Some(quota))]);
            var end := PerformAll(cfg, start, acts);
            && OnOverage(cfg, start.books, c.org, quota) && Runs(cfg, start, acts, c.org, c.period, k) && Reliable(acts)
            && end.pending == {} && |Qualified(end.books.usage, c.org, c.period)| == quota + 1
            && |Reported(end.books, c.org, c.period)| == k
  {
    StartStands(cfg, c, quota);
    hide Runs, OnOverage, Reliable, PerformAll, Qualified, Reported, Qualifies, Stands, OpenWith;
    acts := OverReport(cfg, OpenWith(map[c.org := Account(Pro, Active, Some("cus"), Some(quota))]), c, quota, k);
  }

  lemma OverReport(cfg: Config, start: Shop, c: Completion, quota: nat, k: nat) returns (acts: seq<Act>)
    requires Stands(cfg, start, c, quota, 0, 0, 0) && 0 < k <= quota + 1
    ensures Runs(cfg, start, acts, c.org, c.period, k) && Reliable(acts)
    ensures var end := PerformAll(cfg, start, acts);
            && end.pending == {} && |Qualified(end.books.usage, c.org, c.period)| == quota + 1
            && |Reported(end.books, c.org, c.period)| == k
  {
    hide Runs, Stands, InFlight, Reliable, PerformAll, Qualified, Reported;
    var n := quota + 1 - k;
    var xs := OneByOne(cfg, start, c, quota, 0, n, k);
    var ys := RecordMany(cfg, PerformAll(cfg, start, xs), c, quota, n, n, 0, k, k);
    Follows(cfg, start, xs, ys, c.org, c.period, k);
    var zs := SettleAll(cfg, PerformAll(cfg, start, xs + ys), c, quota, n, quota + 1, 0, k);
    Follows(cfg, start, xs + ys, zs, c.org, c.period, k);
    ReliableTogether(xs, ys);
    ReliableTogether(xs + ys, zs);
    acts := xs + ys + zs;
    StandsInFlight(cfg, PerformAll(cfg, start, acts), c, quota, quota + 1, quota + 1, k);
    StandsDone(cfg, PerformAll(cfg, start, acts), c, quota, quota + 1, k);
  }

  lemma StandsDone(cfg: Config, s: Shop, c: Completion, quota: nat, n: nat, r: nat)
    requires Stands(cfg, s, c, quota, n, n, r)
    ensures s.pending == {}
  {
  }

  lemma StartStands(cfg: Config, c: Completion, quota: nat)
    requires Qualifies(cfg, c)
    ensures var start := OpenWith(map[c.org := Account(Pro, Active, Some("cus"), Some(quota))]);
            Stands(cfg, start, c, quota, 0, 0, 0) && OnOverage(cfg, start.books, c.org, quota)
  {
    assert Between(0, 0) == {};
  }

  lemma InsertStores(cfg: Config, s: Shop, c: Completion)
    requires c.interview !in s.books.usage
    ensures var s' := Perform(cfg, s, Insert(c));
            && s'.books.usage.Keys == s.books.usage.Keys + {c.interview}
            && s'.books.usage[c.interview].org == c.org && s'.books.usage[c.interview].period == c.period
            && s'.books.usage[c.interview].qualified == Qualifies(cfg, c)
            && forall i | i in s.books.usage :: s'.books.usage[i] == s.books.usage[i]
  {
  }

  lemma OwnAt(usage: map<nat, Usage>, c: Completion, n: nat, i: nat)
    requires OwnOnly(usage, c, n) && i < n
    ensures i in usage && usage[i].org == c.org && usage[i].period == c.period && usage[i].qualified
  {
    assert i in Between(0, n);
  }

  lemma DecideOwners(cfg: Config, b: Books, i: nat, g: Gateway, c: Completion, n: nat)
    requires i in b.usage && OwnOnly(b.usage, c, n)
    ensures OwnOnly(Decide(cfg, b, i, g).usage, c, n)
  {
    hide Due;
  }

  // ---------------------------------------------------------------- the mark

  /** The gateway's answer to the report of an interview, if its first completion was due for one. */
  function Answer(cfg: Config, b: Books, jobs: seq<Job>, i: nat): Option<Gateway>
    decreases |jobs|
  {
    if jobs == [] then None
    else
      var c := jobs[0].c;
      if c.interview != i then Answer(cfg, Complete(cfg, b, c, jobs[0].g), jobs[1..], i)
      else
        var b1 := CreateAccount(InsertUsage(cfg, b, c), c.org);
        if Qualifies(cfg, c) && Due(cfg, b1, c.org, c.period) then Some(jobs[0].g) else None
  }

  function IsMarked(b: Books, i: nat): bool { i in b.usage && b.usage[i].reported }

  function TimesReported(b: Books, i: nat): nat { multiset(b.reports)[i] }

  lemma ReportAdds(b: Books, x: nat, i: nat)
    ensures TimesReported(b.(reports := b.reports + [x]), i) == TimesReported(b, i) + if x == i then 1 else 0
  {
  }

  lemma SameReports(b: Books, b': Books, i: nat)
    requires b.reports == b'.reports
    ensures TimesReported(b, i) == TimesReported(b', i)
  {
  }

  /** What one decision adds to the reports and marks. */
  lemma DecideReports(cfg: Config, b: Books, x: nat, g: Gateway, i: nat)
    requires x in b.usage
    ensures var due := Due(cfg, CreateAccount(b, b.usage[x].org), b.usage[x].org, b.usage[x].period);
            var b' := Decide(cfg, b, x, g);
            && TimesReported(b', i) == TimesReported(b, i) + (if x == i && due && !g.Fails? then 1 else 0)
            && IsMarked(b', i) == (IsMarked(b, i) || (x == i && due && g.ReportsAndMarks?))
  {
    hide Due, TimesReported;
    var b1 := CreateAccount(b, b.usage[x].org);
    SameReports(b, b1, i);
    ReportAdds(b1, x, i);
    SameReports(b1.(reports := b1.reports + [x]), Mark(b1.(reports := b1.reports + [x]), x), i);
  }

  lemma CompleteAnswers(cfg: Config, b: Books, j: Job)
    requires j.c.interview !in b.usage
    ensures var b', i, answer := Complete(cfg, b, j.c, j.g), j.c.interview, Answer(cfg, b, [j], j.c.interview);
            && TimesReported(b', i) == TimesReported(b, i) + (if answer.Some? && !answer.value.Fails? then 1 else 0)
            && (IsMarked(b', i) <==> answer == Some(ReportsAndMarks))
  {
    hide Due, Decide, TimesReported, Qualifies;
    var b1 := InsertUsage(cfg, b, j.c);
    SameReports(b, b1, j.c.interview);
    DecideReports(cfg, b1, j.c.interview, j.g, j.c.interview);
  }

  lemma CompleteOther(cfg: Config, b: Books, j: Job, i: nat)
    requires j.c.interview != i || i in b.usage
    ensures var b' := Complete(cfg, b, j.c, j.g);
            TimesReported(b', i) == TimesReported(b, i) && IsMarked(b', i) == IsMarked(b, i)
  {
    hide Due, Decide, TimesReported, Qualifies;
    var b1 := InsertUsage(cfg, b, j.c);
    SameReports(b, b1, i);
    DecideReports(cfg, b1, j.c.interview, j.g, i);
  }

  /** What is reported and what is marked, after any completions with any answers of the gateway: an interview is
      reported once if its first completion was due and the gateway accepted, and marked if marking succeeded too.
      It is reported and unmarked exactly when the answer was `ReportsOnly`. */
  lemma {:induction false} ReportedAndMarkedIff(cfg: Config, b: Books, jobs: seq<Job>, i: nat)
    requires i !in b.usage && i !in b.reports
    ensures var b', answer := CompleteAll(cfg, b, jobs), Answer(cfg, b, jobs, i);
            && TimesReported(b', i) == (if answer.Some? && !answer.value.Fails? then 1 else 0)
            && (IsMarked(b', i) <==> answer == Some(ReportsAndMarks))
            && (TimesReported(b', i) > 0 && !IsMarked(b', i) <==> answer == Some(ReportsOnly))
    decreases |jobs|
  {
    hide Complete;
    if jobs != [] {
      var j := jobs[0];
      var b1 := Complete(cfg, b, j.c, j.g);
      CompleteRecords(cfg, b, j, i);
      if j.c.interview == i {
        CompleteAnswers(cfg, b, j);
        assert Answer(cfg, b, [j], i) == Answer(cfg, b, jobs, i);
        RecordedStays(cfg, b1, jobs[1..], i);
      } else {
        CompleteOther(cfg, b, j, i);
        ReportedAndMarkedIff(cfg, b1, jobs[1..], i);
      }
    }
  }

  lemma {:induction false} RecordedStays(cfg: Config, b: Books, jobs: seq<Job>, i: nat)
    requires i in b.usage
    ensures var b' := CompleteAll(cfg, b, jobs);
            i in b'.usage && TimesReported(b', i) == TimesReported(b, i) && IsMarked(b', i) == IsMarked(b, i)
    decreases |jobs|
  {
    hide Complete;
    if jobs != [] {
      CompleteRecords(cfg, b, jobs[0], i);
      CompleteOther(cfg, b, jobs[0], i);
      RecordedStays(cfg, Complete(cfg, b, jobs[0].c, jobs[0].g), jobs[1..], i);
    }
  }

  /** The retry that `record_completion` leaves to a reconciliation job: report what is qualified and unmarked. */
  function Retry(b: Books, i: nat): Books {
    if i in b.usage && b.usage[i].qualified && !b.usage[i].reported then Mark(b.(reports := b.reports + [i]), i) else b
  }

  /** Such a retry reports an interview twice exactly when the gateway had accepted it and only marking failed. */
  lemma RetryReportsTwiceIff(cfg: Config, b: Books, jobs: seq<Job>, i: nat)
    requires i !in b.usage && i !in b.reports
    ensures TimesReported(Retry(CompleteAll(cfg, b, jobs), i), i) == 2 <==> Answer(cfg, b, jobs, i) == Some(ReportsOnly)
    ensures TimesReported(Retry(CompleteAll(cfg, b, jobs), i), i) <= 2
  {
    hide Complete, Due;
    ReportedAndMarkedIff(cfg, b, jobs, i);
    FirstCompletionWins(cfg, b, jobs, i);
    AnswerQualifies(cfg, b, jobs, i);
  }

  lemma {:induction false} AnswerQualifies(cfg: Config, b: Books, jobs: seq<Job>, i: nat)
    ensures Answer(cfg, b, jobs, i).Some? ==> FirstOf(jobs, i).Some? && Qualifies(cfg, FirstOf(jobs, i).value)
    decreases |jobs|
  {
    hide Complete, Due;
    if jobs != [] && jobs[0].c.interview != i {
      AnswerQualifies(cfg, Complete(cfg, b, jobs[0].c, jobs[0].g), jobs[1..], i);
    }
  }
}
