/** The release gate: from a campaign's evaluation workspace to SHIP or HOLD, with the reasons.

    A blocker's message is kept as the facts it prints. Scores are exact reals. */
module Release {
  import opened Wrappers
  import opened Scores

  datatype Version = Version(name: string, version: string)

  datatype Run = Run(
    id: nat, caseId: nat, repetition: nat, slice: string, baseline: Version, candidate: Version,
    baselineScore: real, candidateScore: real, critical: bool)

  datatype CaseStatus = Hypothesis | EvidenceBacked | Regression

  datatype Case = Case(id: nat, title: string, status: CaseStatus)

  datatype Bindings = Bindings(baseline: Version, candidate: Version)

  datatype Example = Example(holdout: bool, agrees: bool)

  datatype Judge = Judge(name: string, version: string, rubric: string)

  datatype Calibration = Calibration(id: nat, judge: Judge, examples: seq<Example>)

  datatype Gate = Gate(
    minimumOverallScore: nat, minimumSliceScore: nat, maxCriticalFailures: nat, minimumRepetitions: nat,
    requiresHumanCalibration: bool, minimumCalibrationExamples: nat, minimumHoldoutExamples: nat, minimumJudgeAgreement: real)

  datatype Plan = Plan(gate: Gate, criticalSlices: seq<string>)

  datatype Spec = Spec(plan: Option<Plan>, cases: seq<Case>, bindings: Option<Bindings>, runs: seq<Run>,
                       calibrations: seq<Calibration>)

  datatype Code =
    | ContractMissing | CasesMissing | HypothesisCases | BindingsMissing | RepetitionsMissing(id: nat) | TrialsMissing
    | CriticalFailures | OverallScoreBelowFloor | SliceMissing(slice: string) | SliceBelowFloor(slice: string)
    | CalibrationExamplesMissing | CalibrationHoldoutMissing | JudgeAgreementBelowFloor

  /** The facts a blocker's message prints. */
  datatype Note = Note(subject: string, found: real, needed: real)

  datatype Finding = Finding(code: Code, note: Note)

  datatype Blockers = Blockers(codes: seq<Code>, notes: seq<Note>)

  datatype Decision = Ship | Hold

  datatype Record = Record(
    decision: Decision, complete: bool, blockers: Blockers, evaluatedCases: nat, criticalFailures: Option<nat>,
    overall: Option<real>, baseline: Option<real>, delta: Option<real>, confidence: Option<Interval>,
    slices: map<string, real>, agreement: Option<real>, trialIds: seq<nat>, calibrationIds: seq<nat>)

  // ---------------------------------------------------------------- the evidence

  function Candidate(): Run -> real { (r: Run) => r.candidateScore }
  function Baseline(): Run -> real { (r: Run) => r.baselineScore }
  function SliceOf(): Run -> string { (r: Run) => r.slice }

  predicate IsRunnable(c: Case) { !c.status.Hypothesis? }

  predicate Bound(bindings: Option<Bindings>, r: Run) {
    bindings.Some? && r.baseline == bindings.value.baseline && r.candidate == bindings.value.candidate
  }

  function RunsFor(bindings: Option<Bindings>, id: nat): Run -> bool { (r: Run) => Bound(bindings, r) && r.caseId == id }

  /** The bound runs of one case, in their order. */
  function RunsOf(spec: Spec, runs: seq<Run>, id: nat): seq<Run> { Filter(runs, RunsFor(spec.bindings, id)) }

  function Gathered(spec: Spec, cases: seq<Case>): seq<Run> {
    if cases == [] then []
    else Gathered(spec, cases[..|cases| - 1]) + RunsOf(spec, spec.runs, cases[|cases| - 1].id)
  }

  function Runnable(cases: seq<Case>): seq<Case> { Filter(cases, IsRunnable) }

  /** All runs that count, grouped by case. */
  function Evidence(spec: Spec): seq<Run> { Gathered(spec, Runnable(spec.cases)) }

  function Repetitions(runs: seq<Run>): set<nat> { set r | r in runs :: r.repetition }

  function CaseIds(runs: seq<Run>): set<nat> { set r | r in runs :: r.caseId }

  function Tally<T>(xs: seq<T>, p: T -> bool): nat {
    if xs == [] then 0 else (if p(xs[0]) then 1 else 0) + Tally(xs[1..], p)
  }

  function Criticals(runs: seq<Run>): nat { Tally(runs, (r: Run) => r.critical) }

  function Average(runs: seq<Run>, f: Run -> real): Option<real> { if runs == [] then None else Some(Round2(Mean(runs, f))) }

  function SliceScore(runs: seq<Run>, k: string): Option<real> { Average(Slice(runs, SliceOf(), k), Candidate()) }

  function Current(cs: seq<Calibration>): seq<Calibration> {
    if cs == [] then [] else var judge := cs[|cs| - 1].judge; Filter(cs, (c: Calibration) => c.judge == judge)
  }

  function Examples(cs: seq<Calibration>): seq<Example> {
    if cs == [] then [] else Examples(cs[..|cs| - 1]) + cs[|cs| - 1].examples
  }

  function Agreeing(xs: seq<Example>): nat { Tally(xs, (x: Example) => x.agrees) }
  function Holdouts(xs: seq<Example>): nat { Tally(xs, (x: Example) => x.holdout) }

  function Agreement(xs: seq<Example>): Option<real> {
    if xs == [] then None else Some(Round4(Agreeing(xs) as real / |xs| as real))
  }

  // ---------------------------------------------------------------- findings

  function When(b: bool, code: Code, note: Note): seq<Finding> { if b then [Finding(code, note)] else [] }

  function CaseFindings(spec: Spec): seq<Finding> {
    var hypotheses := |spec.cases| - |Runnable(spec.cases)|;
    if spec.cases == [] then [Finding(CasesMissing, Note("", 0.0, 1.0))]
    else When(hypotheses != 0, HypothesisCases, Note("", hypotheses as real, 0.0))
  }

  function RepetitionFindings(spec: Spec, gate: Gate, cases: seq<Case>): seq<Finding> {
    if cases == [] then []
    else
      var c := cases[|cases| - 1];
      var n := |Repetitions(RunsOf(spec, spec.runs, c.id))|;
      RepetitionFindings(spec, gate, cases[..|cases| - 1])
      + When(n < gate.minimumRepetitions, RepetitionsMissing(c.id), Note(c.title, n as real, gate.minimumRepetitions as real))
  }

  function ScoreFindings(gate: Gate, runs: seq<Run>): seq<Finding> {
    var overall := Average(runs, Candidate());
    When(runs == [], TrialsMissing, Note("", 0.0, 1.0))
    + When(Criticals(runs) > gate.maxCriticalFailures, CriticalFailures,
           Note("", Criticals(runs) as real, gate.maxCriticalFailures as real))
    + (if overall.Some? then
         When(overall.value < gate.minimumOverallScore as real, OverallScoreBelowFloor,
              Note("", overall.value, gate.minimumOverallScore as real))
       else [])
  }

  function SliceFinding(gate: Gate, runs: seq<Run>, k: string): seq<Finding> {
    var score := SliceScore(runs, k);
    if score.None? then [Finding(SliceMissing(k), Note(k, 0.0, 0.0))]
    else When(score.value < gate.minimumSliceScore as real, SliceBelowFloor(k),
              Note(k, score.value, gate.minimumSliceScore as real))
  }

  function SliceFindings(gate: Gate, runs: seq<Run>, ks: seq<string>): seq<Finding> {
    if ks == [] then [] else SliceFindings(gate, runs, ks[..|ks| - 1]) + SliceFinding(gate, runs, ks[|ks| - 1])
  }

  function CalibrationFindings(gate: Gate, xs: seq<Example>): seq<Finding> {
    if !gate.requiresHumanCalibration then []
    else
      When(|xs| < gate.minimumCalibrationExamples, CalibrationExamplesMissing,
           Note("", |xs| as real, gate.minimumCalibrationExamples as real))
      + When(Holdouts(xs) < gate.minimumHoldoutExamples, CalibrationHoldoutMissing,
             Note("", Holdouts(xs) as real, gate.minimumHoldoutExamples as real))
      + (if Agreement(xs).Some? then
           When(Agreement(xs).value < gate.minimumJudgeAgreement, JudgeAgreementBelowFloor,
                Note("", Agreement(xs).value, gate.minimumJudgeAgreement))
         else [])
  }

  function Findings(spec: Spec, plan: Plan): seq<Finding> {
    CaseFindings(spec)
    + When(spec.bindings.None?, BindingsMissing, Note("", 0.0, 1.0))
    + RepetitionFindings(spec, plan.gate, Runnable(spec.cases))
    + ScoreFindings(plan.gate, Evidence(spec))
    + SliceFindings(plan.gate, Evidence(spec), plan.criticalSlices)
    + CalibrationFindings(plan.gate, Examples(Current(spec.calibrations)))
  }

  /** A finding is filed unless its code already is. */
  function Block(b: Blockers, f: Finding): Blockers {
    if f.code in b.codes then b else Blockers(b.codes + [f.code], b.notes + [f.note])
  }

  function Filed(b: Blockers, fs: seq<Finding>): Blockers
    decreases |fs|
  {
    if fs == [] then b else Filed(Block(b, fs[0]), fs[1..])
  }

  const NO_BLOCKERS := Blockers([], [])

  /** Codes are never repeated, every code has its message, and exactly the findings' codes are filed. */
  lemma {:induction false} FiledCodes(b: Blockers, fs: seq<Finding>)
    requires |b.codes| == |b.notes| && forall i, j | 0 <= i < j < |b.codes| :: b.codes[i] != b.codes[j]
    ensures var r := Filed(b, fs);
            && |r.codes| == |r.notes|
            && (forall i, j | 0 <= i < j < |r.codes| :: r.codes[i] != r.codes[j])
            && (forall c :: c in r.codes <==> c in b.codes || exists f :: f in fs && f.code == c)
            && (fs != [] ==> r.codes != [])
    decreases |fs|
  {
    if fs != [] {
      var b' := Block(b, fs[0]);
      FiledCodes(b', fs[1..]);
      forall c ensures c in Filed(b, fs).codes <==> c in b.codes || exists f :: f in fs && f.code == c {
        assert forall f :: f in fs <==> f == fs[0] || f in fs[1..];
        assert c in b'.codes <==> c in b.codes || c == fs[0].code;
        if c == fs[0].code {
          assert fs[0] in fs && fs[0].code == c;
        }
      }
      assert fs[0] in fs && fs[0].code in Filed(b, fs).codes;
    }
  }

  lemma {:induction false} FiledInTurn(b: Blockers, fs: seq<Finding>, gs: seq<Finding>)
    ensures Filed(b, fs + gs) == Filed(Filed(b, fs), gs)
    decreases |fs|
  {
    if fs == [] {
      assert fs + gs == gs;
    } else {
      assert (fs + gs)[1..] == fs[1..] + gs;
      FiledInTurn(Block(b, fs[0]), fs[1..], gs);
    }
  }

  // ---------------------------------------------------------------- the record

  function SliceScores(runs: seq<Run>): map<string, real> {
    map k | k in Keys(runs, SliceOf()) && SliceScore(runs, k).Some? :: SliceScore(runs, k).value
  }

  function Difference2(x: Option<real>, y: Option<real>): Option<real> {
    if x.Some? && y.Some? then Some(Round2(x.value - y.value)) else None
  }

  function TrialIds(runs: seq<Run>): seq<nat> { seq(|runs|, i requires 0 <= i < |runs| => runs[i].id) }

  function CalibrationIds(cs: seq<Calibration>): seq<nat> { seq(|cs|, i requires 0 <= i < |cs| => cs[i].id) }

  function ConfidenceOf(root: real -> real, runs: seq<Run>): Option<Interval> {
    if |runs| < 2 then None else Some(ConfidenceInterval(root, runs, Candidate()))
  }

  /** The decision as a function of the evidence. */
  function RecordOf(spec: Spec, root: real -> real): Record {
    if spec.plan.None? then
      Record(Hold, false, Blockers([ContractMissing], [Note("", 0.0, 1.0)]), 0, None, None, None, None, None, map[], None, [], [])
    else
      var runs, current := Evidence(spec), Current(spec.calibrations);
      var blockers := Filed(NO_BLOCKERS, Findings(spec, spec.plan.value));
      Record(if blockers.codes == [] && runs != [] then Ship else Hold, runs != [], blockers, |CaseIds(runs)|,
             if runs != [] then Some(Criticals(runs)) else None,
             Average(runs, Candidate()), Average(runs, Baseline()), Difference2(Average(runs, Candidate()),
                 Average(runs, Baseline())),
             ConfidenceOf(root, runs), SliceScores(runs), Agreement(Examples(current)), TrialIds(runs), CalibrationIds(current))
  }

  // ---------------------------------------------------------------- the computation

  function Group<K, V>(m: map<K, seq<V>>, k: K): seq<V> { if k in m then m[k] else [] }

  /** Groups the runs that are bound and belong to a case. */
  method GroupRuns(spec: Spec) returns (byCase: map<nat, seq<Run>>)
    ensures forall c | c in spec.cases :: Group(byCase, c.id) == RunsOf(spec, spec.runs, c.id)
  {
    hide Filter, RunsFor;
    byCase := map[];
    var ids := set c | c in spec.cases :: c.id;
    forall id ensures RunsOf(spec, spec.runs[..0], id) == [] {
      NothingFiltered(RunsFor(spec.bindings, id));
    }
    for i := 0 to |spec.runs|
      invariant forall id | id in ids :: Group(byCase, id) == RunsOf(spec, spec.runs[..i], id)
    {
      var run := spec.runs[i];
      forall id ensures RunsOf(spec, spec.runs[..i + 1], id)
                        == RunsOf(spec, spec.runs[..i], id) + if Bound(spec.bindings, run) && run.caseId
                            == id then [run] else [] {
        FilterStep(spec.runs, i, RunsFor(spec.bindings, id));
        IsFor(spec.bindings, id, run);
      }
      if run.caseId in ids && Bound(spec.bindings, run) {
        byCase := byCase[run.caseId := Group(byCase, run.caseId) + [run]];
      }
    }
    assert spec.runs[..|spec.runs|] == spec.runs;
  }

  lemma IsFor(bindings: Option<Bindings>, id: nat, r: Run)
    ensures RunsFor(bindings, id)(r) <==> Bound(bindings, r) && r.caseId == id
  {
  }

  lemma FiledOne(b: Blockers, f: Finding)
    ensures Filed(b, []) == b && Filed(b, [f]) == Block(b, f)
  {
    assert [f][1..] == [];
  }

  method CheckRepetitions(spec: Spec, gate: Gate, byCase: map<nat, seq<Run>>, filed: Blockers) returns (b: Blockers)
    requires forall c | c in Runnable(spec.cases) :: Group(byCase, c.id) == RunsOf(spec, spec.runs, c.id)
    ensures b == Filed(filed, RepetitionFindings(spec, gate, Runnable(spec.cases)))
  {
    hide Filter, RunsOf, Repetitions, Runnable, Block, Filed;
    var cases := Runnable(spec.cases);
    b := filed;
    FiledOne(b, Finding(TrialsMissing, Note("", 0.0, 0.0)));
    for i := 0 to |cases|
      invariant b == Filed(filed, RepetitionFindings(spec, gate, cases[..i]))
    {
      var c := cases[i];
      assert cases[..i + 1][..i] == cases[..i];
      var found := |Repetitions(Group(byCase, c.id))|;
      FiledOne(b, Finding(RepetitionsMissing(c.id), Note(c.title, found as real, gate.minimumRepetitions as real)));
      FiledInTurn(filed, RepetitionFindings(spec, gate, cases[..i]),
                  When(found < gate.minimumRepetitions, RepetitionsMissing(c.id),
                       Note(c.title, found as real, gate.minimumRepetitions as real)));
      if found < gate.minimumRepetitions {
        b := Block(b, Finding(RepetitionsMissing(c.id), Note(c.title, found as real, gate.minimumRepetitions as real)));
      }
    }
    assert cases[..|cases|] == cases;
  }

  method GatherRuns(spec: Spec, byCase: map<nat, seq<Run>>) returns (runs: seq<Run>)
    requires forall c | c in Runnable(spec.cases) :: Group(byCase, c.id) == RunsOf(spec, spec.runs, c.id)
    ensures runs == Evidence(spec)
  {
    hide Filter, RunsOf, Runnable;
    var cases := Runnable(spec.cases);
    runs := [];
    for i := 0 to |cases|
      invariant runs == Gathered(spec, cases[..i])
    {
      assert cases[..i + 1][..i] == cases[..i];
      runs := runs + Group(byCase, cases[i].id);
    }
    assert cases[..|cases|] == cases;
  }

  /** Groups the scores by slice and averages each group. */
  method ScoreSlices(runs: seq<Run>) returns (scores: map<string, real>)
    ensures scores == SliceScores(runs)
  {
    hide Filter, Slice, Round2;
    var values: map<string, seq<Run>> := map[];
    forall k ensures Slice(runs[..0], SliceOf(), k) == [] {
      SliceOfNothing<Run>(SliceOf(), k);
    }
    for i := 0 to |runs|
      invariant forall k :: Group(values, k) == Slice(runs[..i], SliceOf(), k)
      invariant forall k | k in values :: values[k] != []
    {
      var r := runs[i];
      forall k ensures Slice(runs[..i + 1], SliceOf(), k) == Slice(runs[..i], SliceOf(), k) + if r.slice == k then [r] else [] {
        SliceStep(runs, i, SliceOf(), k);
      }
      ghost var was := values;
      values := values[r.slice := Group(values, r.slice) + [r]];
      forall k ensures Group(values, k) == Slice(runs[..i + 1], SliceOf(), k) {
        assert Group(was, k) == Slice(runs[..i], SliceOf(), k);
      }
    }
    assert runs[..|runs|] == runs;
    scores := map k | k in values :: Round2(Mean(values[k], Candidate()));
    forall k ensures k in values <==> k in Keys(runs, SliceOf()) {
      SliceNotEmpty(runs, SliceOf(), k);
    }
    assert forall k | k in values :: values[k] == Slice(runs, SliceOf(), k);
  }

  method CheckSlices(gate: Gate, runs: seq<Run>, scores: map<string, real>, ks: seq<string>, filed: Blockers)
      returns (b: Blockers)
    requires scores == SliceScores(runs)
    ensures b == Filed(filed, SliceFindings(gate, runs, ks))
  {
    hide Slice, SliceScore, Keys;
    b := filed;
    for i := 0 to |ks|
      invariant b == Filed(filed, SliceFindings(gate, runs, ks[..i]))
    {
      var k := ks[i];
      assert ks[..i + 1][..i] == ks[..i];
      ScoredIff(runs, k);
      FiledInTurn(filed, SliceFindings(gate, runs, ks[..i]), SliceFinding(gate, runs, k));
      if k !in scores {
        b := Block(b, Finding(SliceMissing(k), Note(k, 0.0, 0.0)));
      } else if scores[k] < gate.minimumSliceScore as real {
        b := Block(b, Finding(SliceBelowFloor(k), Note(k, scores[k], gate.minimumSliceScore as real)));
      }
    }
    assert ks[..|ks|] == ks;
  }

  lemma ScoredIff(runs: seq<Run>, k: string)
    ensures k in SliceScores(runs) <==> SliceScore(runs, k).Some?
    ensures k in SliceScores(runs) ==> SliceScores(runs)[k] == SliceScore(runs, k).value
  {
    SliceNotEmpty(runs, SliceOf(), k);
  }

  method CheckCalibration(gate: Gate, xs: seq<Example>, agreement: Option<real>, filed: Blockers) returns (b: Blockers)
    requires agreement == Agreement(xs)
    ensures b == Filed(filed, CalibrationFindings(gate, xs))
  {
    b := filed;
    if !gate.requiresHumanCalibration {
      return;
    }
    if |xs| < gate.minimumCalibrationExamples {
      b := Block(b, Finding(CalibrationExamplesMissing, Note("", |xs| as real, gate.minimumCalibrationExamples as real)));
    }
    if Holdouts(xs) < gate.minimumHoldoutExamples {
      b := Block(b, Finding(CalibrationHoldoutMissing, Note("", Holdouts(xs) as real, gate.minimumHoldoutExamples as real)));
    }
    ghost var first := When(|xs| < gate.minimumCalibrationExamples, CalibrationExamplesMissing,
                            Note("", |xs| as real, gate.minimumCalibrationExamples as real));
    ghost var second := When(Holdouts(xs) < gate.minimumHoldoutExamples, CalibrationHoldoutMissing,
                             Note("", Holdouts(xs) as real, gate.minimumHoldoutExamples as real));
    FiledInTurn(filed, first, second);
    FiledInTurn(filed, first + second, if agreement.Some? then When(agreement.value < gate.minimumJudgeAgreement,
        JudgeAgreementBelowFloor, Note("", agreement.value, gate.minimumJudgeAgreement)) else []);
    if agreement.Some? && agreement.value < gate.minimumJudgeAgreement {
      b := Block(b, Finding(JudgeAgreementBelowFloor, Note("", agreement.value, gate.minimumJudgeAgreement)));
    }
  }

  method CheckScores(gate: Gate, runs: seq<Run>, overall: Option<real>, filed: Blockers) returns (b: Blockers)
    requires overall == Average(runs, Candidate())
    ensures b == Filed(filed, ScoreFindings(gate, runs))
  {
    hide Average, Criticals;
    b := filed;
    var critical := Criticals(runs);
    if runs == [] {
      b := Block(b, Finding(TrialsMissing, Note("", 0.0, 1.0)));
    }
    if critical > gate.maxCriticalFailures {
      b := Block(b, Finding(CriticalFailures, Note("", critical as real, gate.maxCriticalFailures as real)));
    }
    ghost var first := When(runs == [], TrialsMissing, Note("", 0.0, 1.0));
    ghost var second := When(critical > gate.maxCriticalFailures, CriticalFailures,
                             Note("", critical as real, gate.maxCriticalFailures as real));
    FiledInTurn(filed, first, second);
    FiledInTurn(filed, first + second, if overall.Some? then When(overall.value < gate.minimumOverallScore as real,
        OverallScoreBelowFloor, Note("", overall.value, gate.minimumOverallScore as real)) else []);
    if overall.Some? && overall.value < gate.minimumOverallScore as real {
      b := Block(b, Finding(OverallScoreBelowFloor, Note("", overall.value, gate.minimumOverallScore as real)));
    }
  }

  method CheckCases(spec: Spec) returns (b: Blockers)
    ensures b == Filed(NO_BLOCKERS, CaseFindings(spec) + When(spec.bindings.None?, BindingsMissing, Note("", 0.0, 1.0)))
  {
    b := NO_BLOCKERS;
    var hypotheses := |spec.cases| - |Runnable(spec.cases)|;
    if spec.cases == [] {
      b := Block(b, Finding(CasesMissing, Note("", 0.0, 1.0)));
    } else if hypotheses != 0 {
      b := Block(b, Finding(HypothesisCases, Note("", hypotheses as real, 0.0)));
    }
    FiledInTurn(NO_BLOCKERS, CaseFindings(spec), When(spec.bindings.None?, BindingsMissing, Note("", 0.0, 1.0)));
    if spec.bindings.None? {
      b := Block(b, Finding(BindingsMissing, Note("", 0.0, 1.0)));
    }
  }

  /** Computes the decision with its loops over runs, cases, slices and calibrations. */
  method ComputeReleaseDecision(spec: Spec, root: real -> real) returns (r: Record)
    ensures r == RecordOf(spec, root)
  {
    hide Filed, CaseFindings, RepetitionFindings, ScoreFindings, SliceFindings, CalibrationFindings, Evidence, Average,
      SliceScores, ConfidenceOf, Filter;
    if spec.plan.None? {
      return Record(Hold, false, Blockers([ContractMissing], [Note("", 0.0, 1.0)]), 0, None, None, None, None, None,
                    map[], None, [], []);
    }
    var plan := spec.plan.value;
    var b := CheckCases(spec);
    ghost var fs := CaseFindings(spec) + When(spec.bindings.None?, BindingsMissing, Note("", 0.0, 1.0));
    var byCase := GroupRuns(spec);
    forall c | c in Runnable(spec.cases) ensures c in spec.cases {
      FilterMember(spec.cases, IsRunnable, c);
    }
    b := CheckRepetitions(spec, plan.gate, byCase, b);
    FiledInTurn(NO_BLOCKERS, fs, RepetitionFindings(spec, plan.gate, Runnable(spec.cases)));
    fs := fs + RepetitionFindings(spec, plan.gate, Runnable(spec.cases));
    var runs := GatherRuns(spec, byCase);
    var overall, baseline := Average(runs, Candidate()), Average(runs, Baseline());
    b := CheckScores(plan.gate, runs, overall, b);
    FiledInTurn(NO_BLOCKERS, fs, ScoreFindings(plan.gate, runs));
    fs := fs + ScoreFindings(plan.gate, runs);
    var slices := ScoreSlices(runs);
    b := CheckSlices(plan.gate, runs, slices, plan.criticalSlices, b);
    FiledInTurn(NO_BLOCKERS, fs, SliceFindings(plan.gate, runs, plan.criticalSlices));
    fs := fs + SliceFindings(plan.gate, runs, plan.criticalSlices);
    var current := Current(spec.calibrations);
    var examples := Examples(current);
    var agreement := Agreement(examples);
    b := CheckCalibration(plan.gate, examples, agreement, b);
    FiledInTurn(NO_BLOCKERS, fs, CalibrationFindings(plan.gate, examples));
    fs := fs + CalibrationFindings(plan.gate, examples);
    assert fs == Findings(spec, plan);
    r := Record(if b.codes == [] && runs != [] then Ship else Hold, runs != [], b, |CaseIds(runs)|,
                if runs != [] then Some(Criticals(runs)) else None, overall, baseline, Difference2(overall, baseline),
                ConfidenceOf(root, runs), slices, agreement, TrialIds(runs), CalibrationIds(current));
  }

  // ---------------------------------------------------------------- when it ships

  /** The mean reaches the floor, up to half a hundredth. */
  ghost predicate Reaches(runs: seq<Run>, floor: nat) {
    runs != [] && Mean(runs, Candidate()) >= floor as real - 0.005
  }

  ghost predicate Calibrated(gate: Gate, xs: seq<Example>) {
    gate.requiresHumanCalibration ==>
      && |xs| >= gate.minimumCalibrationExamples && Holdouts(xs) >= gate.minimumHoldoutExamples
      && (xs != [] ==> Round4(Agreeing(xs) as real / |xs| as real) >= gate.minimumJudgeAgreement)
  }

  /** Everything a release needs, stated on the evidence itself. */
  ghost predicate ReadyToShip(spec: Spec) {
    && spec.plan.Some? && spec.bindings.Some? && spec.cases != []
    && var gate, runs := spec.plan.value.gate, Evidence(spec);
    && (forall c | c in spec.cases ::
          IsRunnable(c) && |Repetitions(RunsOf(spec, spec.runs, c.id))| >= gate.minimumRepetitions)
    && Criticals(runs) <= gate.maxCriticalFailures
    && Reaches(runs, gate.minimumOverallScore)
    && (forall k | k in spec.plan.value.criticalSlices :: Reaches(Slice(runs, SliceOf(), k), gate.minimumSliceScore))
    && Calibrated(gate, Examples(Current(spec.calibrations)))
  }

  lemma {:induction false} FilterIsAll<T>(xs: seq<T>, p: T -> bool)
    ensures |Filter(xs, p)| <= |xs|
    ensures |Filter(xs, p)| == |xs| <==> forall x | x in xs :: p(x)
    ensures |Filter(xs, p)| == |xs| ==> Filter(xs, p) == xs
  {
    if xs != [] {
      FilterIsAll(xs[1..], p);
      assert xs[0] in xs;
      assert forall x :: x in xs <==> x == xs[0] || x in xs[1..];
    }
  }

  lemma {:induction false} NoRepetitionFinding(spec: Spec, gate: Gate, cases: seq<Case>)
    ensures RepetitionFindings(spec, gate, cases) == []
            <==> forall c | c in cases :: |Repetitions(RunsOf(spec, spec.runs, c.id))| >= gate.minimumRepetitions
  {
    hide Repetitions, RunsOf;
    if cases != [] {
      var n := |cases| - 1;
      NoRepetitionFinding(spec, gate, cases[..n]);
      assert cases == cases[..n] + [cases[n]];
      assert forall c :: c in cases <==> c == cases[n] || c in cases[..n];
    }
  }

  lemma {:induction false} NoSliceFinding(gate: Gate, runs: seq<Run>, ks: seq<string>)
    ensures SliceFindings(gate, runs, ks) == []
            <==> forall k | k in ks :: Reaches(Slice(runs, SliceOf(), k), gate.minimumSliceScore)
  {
    hide Reaches, Average, Slice;
    if ks != [] {
      var n := |ks| - 1;
      NoSliceFinding(gate, runs, ks[..n]);
      ReachesIff(Slice(runs, SliceOf(), ks[n]), gate.minimumSliceScore);
      assert ks == ks[..n] + [ks[n]];
      assert forall k :: k in ks <==> k == ks[n] || k in ks[..n];
    }
  }

  lemma ReachesIff(runs: seq<Run>, floor: nat)
    ensures Reaches(runs, floor) <==> Average(runs, Candidate()).Some? && Average(runs, Candidate()).value >= floor as real
  {
    hide Mean, Round2;
    if runs != [] {
      RoundReachesFloorIff(Mean(runs, Candidate()), floor);
    }
  }

  lemma NoScoreFinding(gate: Gate, runs: seq<Run>)
    ensures ScoreFindings(gate, runs) == []
            <==> Criticals(runs) <= gate.maxCriticalFailures && Reaches(runs, gate.minimumOverallScore)
  {
    hide Reaches, Criticals;
    ReachesIff(runs, gate.minimumOverallScore);
  }

  lemma NoCalibrationFinding(gate: Gate, xs: seq<Example>)
    ensures CalibrationFindings(gate, xs) == [] <==> Calibrated(gate, xs)
  {
    hide Round4, Agreeing, Holdouts;
  }

  /** The gate ships exactly what is ready to ship; it holds everything else. */
  lemma ShipsIff(spec: Spec, root: real -> real)
    ensures RecordOf(spec, root).decision.Ship? <==> ReadyToShip(spec)
  {
    hide Reaches, Calibrated, Average, Criticals, SliceScores, ConfidenceOf, Evidence, Repetitions, RunsOf, Findings,
      Slice, Filter;
    if spec.plan.Some? {
      var gate, runs := spec.plan.value.gate, Evidence(spec);
      FiledCodes(NO_BLOCKERS, Findings(spec, spec.plan.value));
      FilterIsAll(spec.cases, IsRunnable);
      NoRepetitionFinding(spec, gate, Runnable(spec.cases));
      NoScoreFinding(gate, runs);
      NoSliceFinding(gate, runs, spec.plan.value.criticalSlices);
      NoCalibrationFinding(gate, Examples(Current(spec.calibrations)));
      NoFinding(spec, spec.plan.value);
      assert Reaches(runs, gate.minimumOverallScore) ==>
          runs != [] by { ReachesIff(runs, gate.minimumOverallScore); EmptyAverage(runs); }
    }
  }

  lemma EmptyAverage(runs: seq<Run>)
    ensures Average(runs, Candidate()).Some? <==> runs != []
  {
  }

  lemma NoFinding(spec: Spec, plan: Plan)
    ensures Findings(spec, plan) == [] <==>
              && spec.cases != [] && |Runnable(spec.cases)| == |spec.cases| && spec.bindings.Some?
              && RepetitionFindings(spec, plan.gate, Runnable(spec.cases)) == []
              && ScoreFindings(plan.gate, Evidence(spec)) == []
              && SliceFindings(plan.gate, Evidence(spec), plan.criticalSlices) == []
              && CalibrationFindings(plan.gate, Examples(Current(spec.calibrations))) == []
  {
    hide RepetitionFindings, ScoreFindings, SliceFindings, CalibrationFindings, Evidence, Runnable;
  }

  // ---------------------------------------------------------------- what the record does not depend on

  /** A run that counts: bound, and of a case that may run. */
  ghost predicate Counts(spec: Spec, r: Run) {
    Bound(spec.bindings, r) && exists c :: c in spec.cases && IsRunnable(c) && c.id == r.caseId
  }

  /** Two workspaces that differ in their lists of runs at most, and hold each run that counts equally often. */
  ghost predicate SameEvidence(x: Spec, y: Spec) {
    y == x.(runs := y.runs) && forall r :: Counts(x, r) ==> multiset(x.runs)[r] == multiset(y.runs)[r]
  }

  lemma RunsOfSame(x: Spec, y: Spec, c: Case)
    requires SameEvidence(x, y) && c in x.cases && IsRunnable(c)
    ensures multiset(RunsOf(x, x.runs, c.id)) == multiset(RunsOf(y, y.runs, c.id))
  {
    forall r: Run ensures multiset(RunsOf(x, x.runs, c.id))[r] == multiset(RunsOf(y, y.runs, c.id))[r] {
      FilterCounts(x.runs, RunsFor(x.bindings, c.id), r);
      FilterCounts(y.runs, RunsFor(x.bindings, c.id), r);
      IsFor(x.bindings, c.id, r);
      assert Bound(x.bindings, r) && r.caseId == c.id ==> Counts(x, r);
    }
  }

  lemma {:induction false} GatheredSame(x: Spec, y: Spec, cases: seq<Case>)
    requires SameEvidence(x, y) && forall c | c in cases :: c in x.cases && IsRunnable(c)
    ensures multiset(Gathered(x, cases)) == multiset(Gathered(y, cases))
  {
    hide RunsOf, SameEvidence;
    if cases != [] {
      var n := |cases| - 1;
      GatheredSame(x, y, cases[..n]);
      RunsOfSame(x, y, cases[n]);
    }
  }

  lemma EvidenceSame(x: Spec, y: Spec)
    requires SameEvidence(x, y)
    ensures multiset(Evidence(x)) == multiset(Evidence(y))
  {
    forall c | c in Runnable(x.cases) ensures c in x.cases && IsRunnable(c) {
      FilterMember(x.cases, IsRunnable, c);
    }
    GatheredSame(x, y, Runnable(x.cases));
  }

  lemma {:induction false} TallyIsSum<T>(xs: seq<T>, p: T -> bool, f: T -> real)
    requires forall x :: f(x) == if p(x) then 1.0 else 0.0
    ensures Tally(xs, p) as real == SumBy(xs, f)
  {
    if xs != [] {
      TallyIsSum(xs[1..], p, f);
    }
  }

  lemma TallyIgnoresOrder<T>(xs: seq<T>, ys: seq<T>, p: T -> bool)
    requires multiset(xs) == multiset(ys)
    ensures Tally(xs, p) == Tally(ys, p)
  {
    var f := (x: T) => if p(x) then 1.0 else 0.0;
    TallyIsSum(xs, p, f);
    TallyIsSum(ys, p, f);
    SumIgnoresOrder(xs, ys, f);
  }

  lemma SameMembers<T>(xs: seq<T>, ys: seq<T>)
    requires multiset(xs) == multiset(ys)
    ensures forall x :: x in xs <==> x in ys
    ensures |xs| == |ys|
  {
    assert forall x :: x in xs <==> x in multiset(xs);
    assert forall x :: x in ys <==> x in multiset(ys);
    assert |xs| == |multiset(xs)| && |ys| == |multiset(ys)|;
  }

  lemma AverageIgnoresOrder(xs: seq<Run>, ys: seq<Run>, f: Run -> real)
    requires multiset(xs) == multiset(ys)
    ensures Average(xs, f) == Average(ys, f)
  {
    SumIgnoresOrder(xs, ys, f);
  }

  lemma SliceIgnoresOrder(xs: seq<Run>, ys: seq<Run>, k: string)
    requires multiset(xs) == multiset(ys)
    ensures multiset(Slice(xs, SliceOf(), k)) == multiset(Slice(ys, SliceOf(), k))
    ensures SliceScore(xs, k) == SliceScore(ys, k)
  {
    forall r: Run ensures multiset(Slice(xs, SliceOf(), k))[r] == multiset(Slice(ys, SliceOf(), k))[r] {
      SliceCounts(xs, SliceOf(), k, r);
      SliceCounts(ys, SliceOf(), k, r);
    }
    AverageIgnoresOrder(Slice(xs, SliceOf(), k), Slice(ys, SliceOf(), k), Candidate());
  }

  lemma SliceScoresIgnoreOrder(xs: seq<Run>, ys: seq<Run>)
    requires multiset(xs) == multiset(ys)
    ensures SliceScores(xs) == SliceScores(ys)
  {
    hide SliceScore, Slice;
    SameMembers(xs, ys);
    forall k ensures SliceScore(xs, k) == SliceScore(ys, k) {
      SliceIgnoresOrder(xs, ys, k);
    }
  }

  lemma {:induction false} SliceFindingsIgnoreOrder(gate: Gate, xs: seq<Run>, ys: seq<Run>, ks: seq<string>)
    requires multiset(xs) == multiset(ys)
    ensures SliceFindings(gate, xs, ks) == SliceFindings(gate, ys, ks)
  {
    hide SliceScore, Slice;
    if ks != [] {
      SliceFindingsIgnoreOrder(gate, xs, ys, ks[..|ks| - 1]);
      SliceIgnoresOrder(xs, ys, ks[|ks| - 1]);
    }
  }

  lemma {:induction false} RepetitionFindingsSame(x: Spec, y: Spec, gate: Gate, cases: seq<Case>)
    requires SameEvidence(x, y) && forall c | c in cases :: c in x.cases && IsRunnable(c)
    ensures RepetitionFindings(x, gate, cases) == RepetitionFindings(y, gate, cases)
  {
    hide RunsOf, SameEvidence;
    if cases != [] {
      var n := |cases| - 1;
      RepetitionFindingsSame(x, y, gate, cases[..n]);
      RunsOfSame(x, y, cases[n]);
      SameMembers(RunsOf(x, x.runs, cases[n].id), RunsOf(y, y.runs, cases[n].id));
      assert Repetitions(RunsOf(x, x.runs, cases[n].id)) == Repetitions(RunsOf(y, y.runs, cases[n].id));
    }
  }

  lemma FindingsSame(x: Spec, y: Spec, plan: Plan)
    requires SameEvidence(x, y)
    ensures Findings(x, plan) == Findings(y, plan)
  {
    hide RepetitionFindings, SliceFindings, Evidence, Average, Gathered;
    forall c | c in Runnable(x.cases) ensures c in x.cases && IsRunnable(c) {
      FilterMember(x.cases, IsRunnable, c);
    }
    RepetitionFindingsSame(x, y, plan.gate, Runnable(x.cases));
    EvidenceSame(x, y);
    var xs, ys := Evidence(x), Evidence(y);
    SliceFindingsIgnoreOrder(plan.gate, xs, ys, plan.criticalSlices);
    AverageIgnoresOrder(xs, ys, Candidate());
    TallyIgnoresOrder(xs, ys, (r: Run) => r.critical);
    SameMembers(xs, ys);
  }

  lemma IntervalIgnoresOrder(root: real -> real, xs: seq<Run>, ys: seq<Run>)
    requires multiset(xs) == multiset(ys)
    ensures ConfidenceOf(root, xs) == ConfidenceOf(root, ys)
  {
    SameMembers(xs, ys);
    if |xs| >= 2 {
      VarianceIgnoresOrder(xs, ys, Candidate());
    }
  }

  lemma {:induction false} TrialIdCount(xs: seq<Run>, n: nat)
    ensures multiset(TrialIds(xs))[n] == Tally(xs, (r: Run) => r.id == n)
  {
    if xs != [] {
      TrialIdCount(xs[1..], n);
      assert TrialIds(xs) == [xs[0].id] + TrialIds(xs[1..]);
    }
  }

  lemma TrialIdsSame(xs: seq<Run>, ys: seq<Run>)
    requires multiset(xs) == multiset(ys)
    ensures multiset(TrialIds(xs)) == multiset(TrialIds(ys))
  {
    forall n: nat ensures multiset(TrialIds(xs))[n] == multiset(TrialIds(ys))[n] {
      TrialIdCount(xs, n);
      TrialIdCount(ys, n);
      TallyIgnoresOrder(xs, ys, (r: Run) => r.id == n);
    }
  }

  /** The record depends on the runs that count and on nothing else: permuting the list, or adding runs of other
      versions, unknown cases or hypothesis cases, changes nothing but the order of `trialIds`. */
  lemma RecordDependsOnEvidence(x: Spec, y: Spec, root: real -> real)
    requires SameEvidence(x, y)
    ensures RecordOf(y, root) == RecordOf(x, root).(trialIds := RecordOf(y, root).trialIds)
    ensures multiset(RecordOf(y, root).trialIds) == multiset(RecordOf(x, root).trialIds)
  {
    hide Findings, SliceScores, Evidence, Average, ConfidenceOf, Criticals, CaseIds;
    if x.plan.Some? {
      FindingsSame(x, y, x.plan.value);
      EvidenceSame(x, y);
      var xs, ys := Evidence(x), Evidence(y);
      SameMembers(xs, ys);
      AverageIgnoresOrder(xs, ys, Candidate());
      AverageIgnoresOrder(xs, ys, Baseline());
      IntervalIgnoresOrder(root, xs, ys);
      SliceScoresIgnoreOrder(xs, ys);
      CountsIgnoreOrder(xs, ys);
      TrialIdsSame(xs, ys);
    }
  }

  lemma CountsIgnoreOrder(xs: seq<Run>, ys: seq<Run>)
    requires multiset(xs) == multiset(ys)
    ensures Criticals(xs) == Criticals(ys) && CaseIds(xs) == CaseIds(ys)
  {
    TallyIgnoresOrder(xs, ys, (r: Run) => r.critical);
    SameMembers(xs, ys);
  }

  lemma PermutedRunsAreSameEvidence(x: Spec, runs: seq<Run>)
    requires multiset(runs) == multiset(x.runs)
    ensures SameEvidence(x, x.(runs := runs))
  {
  }

  lemma NoiseIsSameEvidence(x: Spec, i: nat, noise: Run)
    requires i <= |x.runs| && !Counts(x, noise)
    ensures SameEvidence(x, x.(runs := x.runs[..i] + [noise] + x.runs[i..]))
  {
    assert x.runs == x.runs[..i] + x.runs[i..];
  }

  // ---------------------------------------------------------------- what the evidence is

  /** How many cases with this id may run: one, where ids are unique. */
  function RunnableWith(cases: seq<Case>, id: nat): nat {
    if cases == [] then 0
    else
      var c := cases[|cases| - 1];
      RunnableWith(cases[..|cases| - 1], id) + if c.id == id && !c.status.Hypothesis? then 1 else 0
  }

  /** The evidence holds every recorded run of the bound pair of versions once for each runnable case it belongs to,
      and nothing else. */
  lemma EvidenceIs(spec: Spec, r: Run)
    ensures multiset(Evidence(spec))[r]
            == if spec.bindings.Some? && r.baseline == spec.bindings.value.baseline
                  && r.candidate == spec.bindings.value.candidate
               then multiset(spec.runs)[r] * RunnableWith(spec.cases, r.caseId) else 0
  {
    RunnableOf(spec.cases, r.caseId);
    forall c | c in Runnable(spec.cases) ensures !c.status.Hypothesis? {
      FilterMember(spec.cases, IsRunnable, c);
    }
    GatheredIs(spec, Runnable(spec.cases), r);
  }

  lemma {:induction false} RunnableOf(cases: seq<Case>, id: nat)
    ensures RunnableWith(Runnable(cases), id) == RunnableWith(cases, id)
    decreases |cases|
  {
    if cases == [] {
      NothingFiltered(IsRunnable);
    } else {
      var n := |cases| - 1;
      RunnableOf(cases[..n], id);
      FilterStep(cases, n, IsRunnable);
      assert cases[..n + 1] == cases;
      var before, c := Runnable(cases[..n]), cases[n];
      assert (before + [c])[..|before|] == before && before + [] == before;
    }
  }

  lemma {:induction false} GatheredIs(spec: Spec, cases: seq<Case>, r: Run)
    requires forall c | c in cases :: !c.status.Hypothesis?
    ensures multiset(Gathered(spec, cases))[r]
            == if Bound(spec.bindings, r) then multiset(spec.runs)[r] * RunnableWith(cases, r.caseId) else 0
    decreases |cases|
  {
    hide Filter;
    if cases != [] {
      var n := |cases| - 1;
      GatheredIs(spec, cases[..n], r);
      FilterCounts(spec.runs, RunsFor(spec.bindings, cases[n].id), r);
      IsFor(spec.bindings, cases[n].id, r);
      Distributes(multiset(spec.runs)[r], RunnableWith(cases[..n], r.caseId));
      assert cases[n] in cases;
    }
  }

  lemma Distributes(a: nat, b: nat)
    ensures a * (b + 1) == a * b + a
  {
  }

  /** The current calibrations are those of the last one's judge, version and rubric, in their order. */
  lemma CurrentIs(cs: seq<Calibration>) returns (at: seq<nat>)
    ensures |at| == |Current(cs)| && forall k | 0 <= k < |at| :: at[k] < |cs| && Current(cs)[k] == cs[at[k]]
    ensures forall j, k | 0 <= j < k < |at| :: at[j] < at[k]
    ensures forall i: nat | i < |cs| :: i in at <==> cs[i].judge == cs[|cs| - 1].judge
  {
    at := [];
    if cs != [] {
      var judge := cs[|cs| - 1].judge;
      at := FilterPlaces(cs, (c: Calibration) => c.judge == judge);
    }
  }

  // ---------------------------------------------------------------- what the record says of it

  function CandidateSum(runs: seq<Run>): real {
    if runs == [] then 0.0 else runs[0].candidateScore + CandidateSum(runs[1..])
  }

  function BaselineSum(runs: seq<Run>): real {
    if runs == [] then 0.0 else runs[0].baselineScore + BaselineSum(runs[1..])
  }

  function SliceSum(runs: seq<Run>, k: string): real {
    if runs == [] then 0.0 else (if runs[0].slice == k then runs[0].candidateScore else 0.0) + SliceSum(runs[1..], k)
  }

  function SliceSize(runs: seq<Run>, k: string): nat {
    if runs == [] then 0 else (if runs[0].slice == k then 1 else 0) + SliceSize(runs[1..], k)
  }

  lemma {:induction false} SumsAre(runs: seq<Run>)
    ensures SumBy(runs, Candidate()) == CandidateSum(runs) && SumBy(runs, Baseline()) == BaselineSum(runs)
  {
    if runs != [] {
      SumsAre(runs[1..]);
    }
  }

  lemma {:induction false} SliceSumsAre(runs: seq<Run>, k: string)
    ensures var slice := Slice(runs, SliceOf(), k);
            SumBy(slice, Candidate()) == SliceSum(runs, k) && |slice| == SliceSize(runs, k)
  {
    if runs != [] {
      SliceSumsAre(runs[1..], k);
      var rest := Slice(runs[1..], SliceOf(), k);
      assert Slice(runs, SliceOf(), k) == (if runs[0].slice == k then [runs[0]] else []) + rest;
      assert [] + rest == rest;
      SumFirst(runs[0], rest, Candidate());
    }
  }

  /** Where the critical runs are, and the agreeing examples. */
  function CriticalAt(runs: seq<Run>): set<nat> { set i: nat | i < |runs| && runs[i].critical }

  function AgreeingAt(xs: seq<Example>): set<nat> { set i: nat | i < |xs| && xs[i].agrees }

  lemma {:induction false} TallyStep<T>(xs: seq<T>, p: T -> bool)
    requires xs != []
    ensures var n := |xs| - 1; Tally(xs, p) == Tally(xs[..n], p) + if p(xs[n]) then 1 else 0
  {
    var n := |xs| - 1;
    if n == 0 {
      assert xs[1..] == [] && xs[..n] == [];
    } else {
      TallyStep(xs[1..], p);
      assert xs[1..][..n - 1] == xs[..n][1..];
    }
  }

  lemma {:induction false} CriticalsAre(runs: seq<Run>)
    ensures Criticals(runs) == |CriticalAt(runs)|
    decreases |runs|
  {
    if runs != [] {
      var n := |runs| - 1;
      CriticalsAre(runs[..n]);
      TallyStep(runs, (r: Run) => r.critical);
      assert CriticalAt(runs) == CriticalAt(runs[..n]) + if runs[n].critical then {n} else {};
    }
  }

  lemma {:induction false} AgreeingAre(xs: seq<Example>)
    ensures Agreeing(xs) == |AgreeingAt(xs)|
    decreases |xs|
  {
    if xs != [] {
      var n := |xs| - 1;
      AgreeingAre(xs[..n]);
      TallyStep(xs, (x: Example) => x.agrees);
      assert AgreeingAt(xs) == AgreeingAt(xs[..n]) + if xs[n].agrees then {n} else {};
    }
  }

  /** What the record says, stated on the evidence: its two scores are the means of the candidate's and the baseline's
      scores, up to rounding, and the delta is exactly the one less the other; it counts the cases among the runs and
      the critical runs; and it has a score, a mean up to rounding, for each slice among them. */
  lemma RecordSays(spec: Spec, root: real -> real)
    requires spec.plan.Some?
    ensures var runs, r := Evidence(spec), RecordOf(spec, root);
            && r.complete == (runs != []) && r.evaluatedCases == |set x | x in runs :: x.caseId|
            && (runs == [] ==> r.overall.None? && r.baseline.None? && r.delta.None? && r.criticalFailures.None?)
            && (runs != [] ==>
                  && r.overall.Some? && Within(r.overall.value, CandidateSum(runs) / |runs| as real, 0.005)
                  && r.baseline.Some? && Within(r.baseline.value, BaselineSum(runs) / |runs| as real, 0.005)
                  && r.delta == Some(r.overall.value - r.baseline.value)
                  && r.criticalFailures == Some(|CriticalAt(runs)|))
            && (forall k :: k in r.slices <==> exists x :: x in runs && x.slice == k)
            && (forall k | k in r.slices ::
                  SliceSize(runs, k) > 0 && Within(r.slices[k], SliceSum(runs, k) / SliceSize(runs, k) as real, 0.005))
            && |r.trialIds| == |runs| && forall i | 0 <= i < |runs| :: r.trialIds[i] == runs[i].id
  {
    hide Evidence, Findings, Filed, ConfidenceOf, SliceScores, Agreement, Average, Difference2, Criticals, CriticalAt,
      CandidateSum, BaselineSum, SliceSum, SliceSize, Within;
    var runs := Evidence(spec);
    CriticalsAre(runs);
    ScoresSay(runs);
    SlicesSay(runs);
  }

  lemma ScoresSay(runs: seq<Run>)
    ensures var overall, baseline := Average(runs, Candidate()), Average(runs, Baseline());
            if runs == [] then overall.None? && baseline.None? && Difference2(overall, baseline).None?
            else
              && overall.Some? && Within(overall.value, CandidateSum(runs) / |runs| as real, 0.005)
              && baseline.Some? && Within(baseline.value, BaselineSum(runs) / |runs| as real, 0.005)
              && Difference2(overall, baseline) == Some(overall.value - baseline.value)
  {
    hide Round2, SumBy, Within;
    if runs != [] {
      SumsAre(runs);
      RoundIsNear(Mean(runs, Candidate()));
      RoundIsNear(Mean(runs, Baseline()));
      RoundKeepsDifference(Mean(runs, Candidate()), Mean(runs, Baseline()));
    }
  }

  lemma SlicesSay(runs: seq<Run>)
    ensures var scores := SliceScores(runs);
            && (forall k :: k in scores <==> exists x :: x in runs && x.slice == k)
            && forall k | k in scores ::
                 SliceSize(runs, k) > 0 && Within(scores[k], SliceSum(runs, k) / SliceSize(runs, k) as real, 0.005)
  {
    hide Slice, Round2, SumBy;
    var scores := SliceScores(runs);
    forall k ensures k in scores <==> exists x :: x in runs && x.slice == k {
      SliceNotEmpty(runs, SliceOf(), k);
    }
    forall k | k in scores
      ensures SliceSize(runs, k) > 0 && Within(scores[k], SliceSum(runs, k) / SliceSize(runs, k) as real, 0.005)
    {
      SliceNotEmpty(runs, SliceOf(), k);
      SliceSumsAre(runs, k);
      RoundIsNear(Mean(Slice(runs, SliceOf(), k), Candidate()));
    }
  }

  /** The reported agreement is the fraction of agreeing examples among those of the current calibrations, rounded; and
      these are the calibrations the record lists. */
  lemma AgreementSays(spec: Spec, root: real -> real)
    requires spec.plan.Some?
    ensures var r, current := RecordOf(spec, root), Current(spec.calibrations);
            var xs := Examples(current);
            && (r.agreement.None? <==> xs == [])
            && (xs != [] ==> Within(r.agreement.value, |AgreeingAt(xs)| as real / |xs| as real, 0.00005))
            && |r.calibrationIds| == |current| && forall i | 0 <= i < |current| :: r.calibrationIds[i] == current[i].id
  {
    hide Evidence, Findings, Filed, ConfidenceOf, Round4, SliceScores, Average, Current, Agreeing, AgreeingAt, Within;
    var xs := Examples(Current(spec.calibrations));
    AgreeingAre(xs);
    if xs != [] {
      RoundIsNear(Agreeing(xs) as real / |xs| as real);
    }
  }

  /** The examples of all calibrations, one calibration after another. */
  lemma {:induction false} ExamplesAre(cs: seq<Calibration>, k: nat)
    requires k < |cs|
    ensures var before, xs := |Examples(cs[..k])|, cs[k].examples;
            && |Examples(cs[..k + 1])| == before + |xs| <= |Examples(cs)|
            && Examples(cs)[before..before + |xs|] == xs
    decreases |cs|
  {
    var n := |cs| - 1;
    assert cs[..k + 1][..k] == cs[..k];
    if k == n {
      assert cs[..n + 1] == cs;
    } else {
      ExamplesAre(cs[..n], k);
      assert cs[..n][..k] == cs[..k] && cs[..n][..k + 1] == cs[..k + 1];
    }
  }

  // ---------------------------------------------------------------- the reasons it gives

  /** Why a release is held back, stated on the evidence. */
  ghost predicate Reason(spec: Spec, plan: Plan, code: Code) {
    var gate, runs, xs := plan.gate, Evidence(spec), Examples(Current(spec.calibrations));
    match code
    case ContractMissing => false
    case CasesMissing => spec.cases == []
    case HypothesisCases => exists c :: c in spec.cases && c.status.Hypothesis?
    case BindingsMissing => spec.bindings.None?
    case RepetitionsMissing(id) => exists c :: c in spec.cases && FewRepetitions(spec, gate, c, id)
    case TrialsMissing => runs == []
    case CriticalFailures => |CriticalAt(runs)| > gate.maxCriticalFailures
    case OverallScoreBelowFloor =>
      runs != [] && CandidateSum(runs) / |runs| as real < gate.minimumOverallScore as real - 0.005
    case SliceMissing(k) => k in plan.criticalSlices && SliceSize(runs, k) == 0
    case SliceBelowFloor(k) =>
      && k in plan.criticalSlices && SliceSize(runs, k) > 0
      && SliceSum(runs, k) / SliceSize(runs, k) as real < gate.minimumSliceScore as real - 0.005
    case CalibrationExamplesMissing => gate.requiresHumanCalibration && |xs| < gate.minimumCalibrationExamples
    case CalibrationHoldoutMissing => gate.requiresHumanCalibration && |HoldoutsAt(xs)| < gate.minimumHoldoutExamples
    case JudgeAgreementBelowFloor =>
      && gate.requiresHumanCalibration && xs != []
      && Round4(|AgreeingAt(xs)| as real / |xs| as real) < gate.minimumJudgeAgreement
  }

  function HoldoutsAt(xs: seq<Example>): set<nat> { set i: nat | i < |xs| && xs[i].holdout }

  /** The repetitions that runs of the bound pair of versions make of a case. */
  function RepetitionsFor(spec: Spec, id: nat): set<nat> {
    set r | r in spec.runs && r.caseId == id && spec.bindings.Some? && r.baseline == spec.bindings.value.baseline
            && r.candidate == spec.bindings.value.candidate :: r.repetition
  }

  predicate FewRepetitions(spec: Spec, gate: Gate, c: Case, id: nat) {
    c.id == id && !c.status.Hypothesis? && |RepetitionsFor(spec, id)| < gate.minimumRepetitions
  }

  lemma RepetitionsAre(spec: Spec, id: nat)
    ensures Repetitions(RunsOf(spec, spec.runs, id)) == RepetitionsFor(spec, id)
  {
    forall r: Run ensures r in RunsOf(spec, spec.runs, id) <==> r in spec.runs && Bound(spec.bindings, r) && r.caseId == id {
      FilterMember(spec.runs, RunsFor(spec.bindings, id), r);
      IsFor(spec.bindings, id, r);
    }
  }

  ghost predicate HasCode(fs: seq<Finding>, code: Code) { exists f :: f in fs && f.code == code }

  lemma HasEither(fs: seq<Finding>, gs: seq<Finding>, code: Code)
    ensures HasCode(fs + gs, code) <==> HasCode(fs, code) || HasCode(gs, code)
  {
    assert forall f :: f in fs + gs <==> f in fs || f in gs;
  }

  lemma HasWhen(b: bool, given: Code, note: Note, code: Code)
    ensures HasCode(When(b, given, note), code) <==> b && code == given
  {
    if b && code == given {
      assert Finding(given, note) in When(b, given, note);
    }
  }

  /** The record names every reason there is, and none that is not. */
  lemma BlockersAre(spec: Spec, root: real -> real, code: Code)
    requires spec.plan.Some?
    ensures code in RecordOf(spec, root).blockers.codes <==> Reason(spec, spec.plan.value, code)
  {
    hide Evidence, Average, Criticals, SliceScores, ConfidenceOf, Agreement, CaseFindings, RepetitionFindings,
      ScoreFindings, SliceFindings, CalibrationFindings, When, HasCode, FewRepetitions, CriticalAt, AgreeingAt,
      HoldoutsAt, CandidateSum, SliceSum, SliceSize, Round4;
    var plan, runs, xs := spec.plan.value, Evidence(spec), Examples(Current(spec.calibrations));
    var note := Note("", 0.0, 1.0);
    FiledCodes(NO_BLOCKERS, Findings(spec, plan));
    CodeFiled(Findings(spec, plan), code);
    var a, b := CaseFindings(spec), When(spec.bindings.None?, BindingsMissing, note);
    var c, d := RepetitionFindings(spec, plan.gate, Runnable(spec.cases)), ScoreFindings(plan.gate, runs);
    var e, f := SliceFindings(plan.gate, runs, plan.criticalSlices), CalibrationFindings(plan.gate, xs);
    HasEither(a, b, code);
    HasEither(a + b, c, code);
    HasEither(a + b + c, d, code);
    HasEither(a + b + c + d, e, code);
    HasEither(a + b + c + d + e, f, code);
    CaseCodes(spec, code);
    HasWhen(spec.bindings.None?, BindingsMissing, note, code);
    RunnableCases(spec.cases);
    RepetitionCodes(spec, plan.gate, Runnable(spec.cases), code);
    RepetitionReason(spec, plan.gate, code);
    ScoreCodes(plan.gate, runs, code);
    SliceCodes(plan.gate, runs, plan.criticalSlices, code);
    CalibrationCodes(plan.gate, xs, code);
  }

  lemma CodeFiled(fs: seq<Finding>, code: Code)
    ensures code in Filed(NO_BLOCKERS, fs).codes <==> HasCode(fs, code)
  {
    FiledCodes(NO_BLOCKERS, fs);
  }

  lemma RunnableCases(cases: seq<Case>)
    ensures forall c :: c in Runnable(cases) <==> c in cases && !c.status.Hypothesis?
  {
    forall c ensures c in Runnable(cases) <==> c in cases && !c.status.Hypothesis? {
      FilterMember(cases, IsRunnable, c);
    }
  }

  lemma CaseCodes(spec: Spec, code: Code)
    ensures HasCode(CaseFindings(spec), code) <==>
              || (code.CasesMissing? && spec.cases == [])
              || (code.HypothesisCases? && exists c :: c in spec.cases && c.status.Hypothesis?)
  {
    FilterIsAll(spec.cases, IsRunnable);
    var hypotheses := |spec.cases| - |Runnable(spec.cases)|;
    HasWhen(hypotheses != 0, HypothesisCases, Note("", hypotheses as real, 0.0), code);
    HasWhen(true, CasesMissing, Note("", 0.0, 1.0), code);
  }

  lemma {:induction false} RepetitionCodes(spec: Spec, gate: Gate, cases: seq<Case>, code: Code)
    requires forall c | c in cases :: !c.status.Hypothesis?
    ensures HasCode(RepetitionFindings(spec, gate, cases), code)
            <==> code.RepetitionsMissing? && exists c :: c in cases && FewRepetitions(spec, gate, c, code.id)
  {
    hide RunsOf, Repetitions, RepetitionsFor, When, HasCode;
    if cases == [] {
      NothingHas(code);
    } else {
      var k := |cases| - 1;
      var c := cases[k];
      RepetitionCodes(spec, gate, cases[..k], code);
      var n := |Repetitions(RunsOf(spec, spec.runs, c.id))|;
      RepetitionsAre(spec, c.id);
      var note := Note(c.title, n as real, gate.minimumRepetitions as real);
      HasEither(RepetitionFindings(spec, gate, cases[..k]),
                When(n < gate.minimumRepetitions, RepetitionsMissing(c.id), note), code);
      HasWhen(n < gate.minimumRepetitions, RepetitionsMissing(c.id), note, code);
      assert forall x :: x in cases <==> x == c || x in cases[..k];
      assert c in cases && !c.status.Hypothesis?;
      if code.RepetitionsMissing? {
        assert FewRepetitions(spec, gate, c, code.id) <==> n < gate.minimumRepetitions && code == RepetitionsMissing(c.id);
      }
    }
  }

  lemma RepetitionReason(spec: Spec, gate: Gate, code: Code)
    ensures code.RepetitionsMissing? ==>
              ((exists c :: c in Runnable(spec.cases) && FewRepetitions(spec, gate, c, code.id))
               <==> exists c :: c in spec.cases && FewRepetitions(spec, gate, c, code.id))
  {
    hide RepetitionsFor;
    RunnableCases(spec.cases);
  }

  lemma ScoreCodes(gate: Gate, runs: seq<Run>, code: Code)
    ensures HasCode(ScoreFindings(gate, runs), code) <==>
              || (code.TrialsMissing? && runs == [])
              || (code.CriticalFailures? && |CriticalAt(runs)| > gate.maxCriticalFailures)
              || (code.OverallScoreBelowFloor? && runs != []
                  && CandidateSum(runs) / |runs| as real < gate.minimumOverallScore as real - 0.005)
  {
    hide When, HasCode, Round2, Criticals, CriticalAt, CandidateSum, SumBy;
    var overall, none := Average(runs, Candidate()), Note("", 0.0, 1.0);
    var many := Note("", Criticals(runs) as real, gate.maxCriticalFailures as real);
    var a := When(runs == [], TrialsMissing, none);
    var b := When(Criticals(runs) > gate.maxCriticalFailures, CriticalFailures, many);
    HasWhen(runs == [], TrialsMissing, none, code);
    HasWhen(Criticals(runs) > gate.maxCriticalFailures, CriticalFailures, many, code);
    CriticalsAre(runs);
    HasEither(a, b, code);
    if runs == [] {
      assert ScoreFindings(gate, runs) == a + b;
    } else {
      var low := Note("", overall.value, gate.minimumOverallScore as real);
      var c := When(overall.value < gate.minimumOverallScore as real, OverallScoreBelowFloor, low);
      HasEither(a + b, c, code);
      HasWhen(overall.value < gate.minimumOverallScore as real, OverallScoreBelowFloor, low, code);
      SumsAre(runs);
      RoundReachesFloorIff(Mean(runs, Candidate()), gate.minimumOverallScore);
    }
  }

  lemma {:induction false} SliceCodes(gate: Gate, runs: seq<Run>, ks: seq<string>, code: Code)
    ensures HasCode(SliceFindings(gate, runs, ks), code) <==>
              || (code.SliceMissing? && code.slice in ks && SliceSize(runs, code.slice) == 0)
              || (code.SliceBelowFloor? && code.slice in ks && LowSlice(gate, runs, code.slice))
  {
    hide SliceFinding, HasCode, SliceSize, LowSlice;
    if ks == [] {
      NothingHas(code);
    } else {
      var n := |ks| - 1;
      SliceCodes(gate, runs, ks[..n], code);
      HasEither(SliceFindings(gate, runs, ks[..n]), SliceFinding(gate, runs, ks[n]), code);
      SliceCode(gate, runs, ks[n], code);
      assert forall k :: k in ks <==> k == ks[n] || k in ks[..n];
    }
  }

  lemma NothingHas(code: Code)
    ensures !HasCode([], code)
  {
  }

  ghost predicate LowSlice(gate: Gate, runs: seq<Run>, k: string) {
    SliceSize(runs, k) > 0 && SliceSum(runs, k) / SliceSize(runs, k) as real < gate.minimumSliceScore as real - 0.005
  }

  lemma SliceCode(gate: Gate, runs: seq<Run>, k: string, code: Code)
    ensures HasCode(SliceFinding(gate, runs, k), code) <==>
              || (code == SliceMissing(k) && SliceSize(runs, k) == 0)
              || (code == SliceBelowFloor(k) && LowSlice(gate, runs, k))
  {
    hide Slice, Round2, SumBy, SliceSum, SliceSize;
    var slice := Slice(runs, SliceOf(), k);
    SliceSumsAre(runs, k);
    if slice == [] {
      HasWhen(true, SliceMissing(k), Note(k, 0.0, 0.0), code);
    } else {
      var score := SliceScore(runs, k).value;
      RoundReachesFloorIff(Mean(slice, Candidate()), gate.minimumSliceScore);
      HasWhen(score < gate.minimumSliceScore as real, SliceBelowFloor(k),
              Note(k, score, gate.minimumSliceScore as real), code);
    }
  }

  lemma {:induction false} HoldoutsAre(xs: seq<Example>)
    ensures Holdouts(xs) == |HoldoutsAt(xs)|
    decreases |xs|
  {
    if xs != [] {
      var n := |xs| - 1;
      HoldoutsAre(xs[..n]);
      TallyStep(xs, (x: Example) => x.holdout);
      assert HoldoutsAt(xs) == HoldoutsAt(xs[..n]) + if xs[n].holdout then {n} else {};
    }
  }

  lemma CalibrationCodes(gate: Gate, xs: seq<Example>, code: Code)
    ensures HasCode(CalibrationFindings(gate, xs), code) <==>
              && gate.requiresHumanCalibration
              && (|| (code.CalibrationExamplesMissing? && |xs| < gate.minimumCalibrationExamples)
                  || (code.CalibrationHoldoutMissing? && |HoldoutsAt(xs)| < gate.minimumHoldoutExamples)
                  || (code.JudgeAgreementBelowFloor? && xs != []
                      && Round4(|AgreeingAt(xs)| as real / |xs| as real) < gate.minimumJudgeAgreement))
  {
    hide When, HasCode, Round4, Holdouts, HoldoutsAt, Agreeing, AgreeingAt;
    NothingHas(code);
    HoldoutsAre(xs);
    AgreeingAre(xs);
    if gate.requiresHumanCalibration {
      var few := Note("", |xs| as real, gate.minimumCalibrationExamples as real);
      var held := Note("", Holdouts(xs) as real, gate.minimumHoldoutExamples as real);
      var a := When(|xs| < gate.minimumCalibrationExamples, CalibrationExamplesMissing, few);
      var b := When(Holdouts(xs) < gate.minimumHoldoutExamples, CalibrationHoldoutMissing, held);
      HasWhen(|xs| < gate.minimumCalibrationExamples, CalibrationExamplesMissing, few, code);
      HasWhen(Holdouts(xs) < gate.minimumHoldoutExamples, CalibrationHoldoutMissing, held, code);
      HasEither(a, b, code);
      if xs == [] {
        assert CalibrationFindings(gate, xs) == a + b;
      } else {
        var low := Note("", Agreement(xs).value, gate.minimumJudgeAgreement);
        var c := When(Agreement(xs).value < gate.minimumJudgeAgreement, JudgeAgreementBelowFloor, low);
        HasWhen(Agreement(xs).value < gate.minimumJudgeAgreement, JudgeAgreementBelowFloor, low, code);
        HasEither(a + b, c, code);
      }
    }
  }

  // ---------------------------------------------------------------- reported scores

  /** The reported overall score lies between two reported slice scores. */
  lemma OverallBetweenSlices(spec: Spec, root: real -> real) returns (lowest: string, highest: string)
    requires spec.plan.Some? && Evidence(spec) != []
    ensures var r := RecordOf(spec, root);
            && lowest in r.slices && highest in r.slices && r.overall.Some?
            && r.slices[lowest] <= r.overall.value <= r.slices[highest]
  {
    hide Evidence, Findings, ConfidenceOf, Mean, Round2;
    var runs := Evidence(spec);
    lowest, highest := MeanBetweenSlices(runs, SliceOf(), Candidate());
    RoundIsMonotone(Mean(Slice(runs, SliceOf(), lowest), Candidate()), Mean(runs, Candidate()));
    RoundIsMonotone(Mean(runs, Candidate()), Mean(Slice(runs, SliceOf(), highest), Candidate()));
  }

  /** The reported interval contains the reported score and stays on the scale. */
  lemma IntervalContainsOverall(spec: Spec, root: real -> real)
    requires spec.plan.Some? && |Evidence(spec)| >= 2 && IsRoot(root)
    requires forall r | r in spec.runs :: 0.0 <= r.candidateScore <= 100.0
    ensures var r := RecordOf(spec, root);
            r.confidence.Some? && r.overall.Some?
            && 0.0 <= r.confidence.value.low <= r.overall.value <= r.confidence.value.high <= 100.0
  {
    hide Evidence, Findings, Mean, Round2, ConfidenceInterval, SliceScores;
    forall r | r in Evidence(spec) ensures 0.0 <= Candidate()(r) <= 100.0 {
      EvidenceRun(spec, r);
    }
    IntervalContainsMean(root, Evidence(spec), Candidate());
  }

  lemma EvidenceRun(spec: Spec, r: Run)
    requires r in Evidence(spec)
    ensures r in spec.runs
  {
    EvidenceIsRecorded(spec, Runnable(spec.cases), r);
  }

  lemma {:induction false} EvidenceIsRecorded(spec: Spec, cases: seq<Case>, r: Run)
    requires r in Gathered(spec, cases)
    ensures r in spec.runs
  {
    var n := |cases| - 1;
    if r in Gathered(spec, cases[..n]) {
      EvidenceIsRecorded(spec, cases[..n], r);
    } else {
      FilterMember(spec.runs, RunsFor(spec.bindings, cases[n].id), r);
    }
  }

  /** Shipping does not mean the floor is met: a mean that misses it by less than half a hundredth is rounded up
      before the comparison, and ships. */
  lemma ShipsJustBelowFloor(root: real -> real, v: Version, id: nat)
    ensures var gate := Gate(80, 70, 0, 1, false, 1, 1, 0.8);
            var run := Run(id, id, 1, "core", v, v, 0.0, 79.996, false);
            var spec := Spec(Some(Plan(gate, [])), [Case(id, "", EvidenceBacked)], Some(Bindings(v, v)), [run], []);
            Mean([run], Candidate()) < 80.0 && RecordOf(spec, root).decision.Ship?
  {
    hide SumBy, Filter, Evidence, RunsOf, Repetitions, Runnable, RecordOf, Criticals, Round4, Mean;
    var gate := Gate(80, 70, 0, 1, false, 1, 1, 0.8);
    var run := Run(id, id, 1, "core", v, v, 0.0, 79.996, false);
    var c := Case(id, "", EvidenceBacked);
    var spec := Spec(Some(Plan(gate, [])), [c], Some(Bindings(v, v)), [run], []);
    OneRun(spec, c, run);
    ShipsIff(spec, root);
  }

  /** A workspace of one case and one run of it. */
  lemma OneRun(spec: Spec, c: Case, run: Run)
    requires spec.cases == [c] && IsRunnable(c) && spec.runs == [run] && Bound(spec.bindings, run) && run.caseId == c.id
    ensures RunsOf(spec, spec.runs, c.id) == [run] && Evidence(spec) == [run]
    ensures |Repetitions([run])| == 1 && Mean([run], Candidate()) == run.candidateScore
    ensures !run.critical ==> Criticals([run]) == 0
  {
    IsFor(spec.bindings, c.id, run);
    FilterIsAll([run], RunsFor(spec.bindings, c.id));
    FilterIsAll([c], IsRunnable);
    assert Gathered(spec, [c]) == Gathered(spec, [c][..0]) + RunsOf(spec, spec.runs, [c][0].id);
    assert Repetitions([run]) == {run.repetition};
    OneMean(run);
    assert [run][1..] == [];
    assert Tally([run][1..], (r: Run) => r.critical) == 0;
  }

  lemma OneMean(run: Run)
    ensures Mean([run], Candidate()) == run.candidateScore
  {
    assert SumBy([run], Candidate()) == run.candidateScore + SumBy([run][1..], Candidate());
    assert [run][1..] == [];
    assert |[run]| as real == 1.0;
  }
}
