/**
  Evaluation metrics and the regression gate: the counting loop over an experiment's runs, the comparison of two
  experiments, and the gate's decision, which checks the comparison's thresholds a second time on its own.
 */
module EvalMetrics {
  import opened Prelude
  import opened ReleaseModels
  import opened EvalDatasets

  /** A run as far as it is counted; whether its error mentions the parser is given. */
  datatype CountedRun = CountedRun(
    runId: string, evalId: string, node: Option<string>, verdict: Verdict, judgeMode: JudgeMode, errored: bool,
    parserError: bool, coveredModes: seq<string>, cost: Option<real>, latency: Option<int>)

  datatype CountedCalibration = CountedCalibration(runId: string, agreement: Option<bool>)

  /** How the platform computes with fractions: the nearest representable number, and the sum of a list. */
  datatype Arithmetic = Arithmetic(round: real -> real, sum: seq<real> -> real)

  datatype Comparison = Comparison(
    baselineId: string, passRateDelta: Option<real>, criticalDelta: Option<int>, highDelta: Option<int>,
    parserDelta: Option<int>, reviewDelta: Option<int>, detected: bool, reasons: seq<RegressionReason>)

  datatype RegressionReason = PassRateDrop | CriticalIncrease | HighIncrease | ParserIncrease | OtherReason(text: string)

  datatype Experiment = Experiment(
    id: string, datasetId: string, completed: bool, evalIds: seq<string>, runIds: seq<string>, createdAt: int,
    metrics: Option<Metrics>, comparison: Option<Comparison>)

  datatype Scenario = Scenario(evalId: string, kind: string)

  datatype Bench = Bench(
    runs: seq<CountedRun>, scenarios: seq<Scenario>, modes: seq<FailureMode>, calibrations: seq<CountedCalibration>,
    experiments: seq<Experiment>, arithmetic: Arithmetic)

  // ----- counting ----------------------------------------------------------------------------

  datatype Tally = Tally(
    scenarios: map<string, nat>, nodes: map<string, nat>, critical: nat, high: nat, parser: nat,
    automated: nat, human: nat, failedIds: seq<string>, reviewIds: seq<string>, costs: seq<real>, latencies: seq<int>)

  datatype Metrics = Metrics(
    totalCases: nat, runCount: nat, passCount: nat, failCount: nat, reviewCount: nat, errorCount: nat,
    passRate: real, failRate: real, reviewRate: real, totalCost: Option<real>, averageLatency: Option<real>,
    calibrated: nat, disagreements: nat, disagreementRate: Option<real>, tally: Tally)

  const UNKNOWN := "unknown"

  /** A later entry with the same id replaces an earlier one. */
  function ScenarioOf(scenarios: seq<Scenario>, evalId: string): string
  {
    if scenarios == [] then UNKNOWN
    else if scenarios[|scenarios| - 1].evalId == evalId then scenarios[|scenarios| - 1].kind
    else ScenarioOf(scenarios[..|scenarios| - 1], evalId)
  }

  function SeverityOf(modes: seq<FailureMode>, id: string): Option<Severity>
  {
    if modes == [] then None
    else if modes[|modes| - 1].id == id then Some(modes[|modes| - 1].severity)
    else SeverityOf(modes[..|modes| - 1], id)
  }

  predicate Covers(b: Bench, r: CountedRun, s: Severity)
  {
    exists id :: id in r.coveredModes && SeverityOf(b.modes, id) == Some(s)
  }

  function Bumped(m: map<string, nat>, key: string): map<string, nat>
  {
    m[key := (if key in m then m[key] else 0) + 1]
  }

  function NodeKey(r: CountedRun): string
  {
    if r.node.Some? && r.node.value != "" then r.node.value else UNKNOWN
  }

  const EMPTY := Tally(map[], map[], 0, 0, 0, 0, 0, [], [], [], [])

  /** What every run adds, whatever its verdict. */
  function AddPresence(b: Bench, t: Tally, r: CountedRun): Tally
  {
    t.(scenarios := Bumped(t.scenarios, ScenarioOf(b.scenarios, r.evalId)), nodes := Bumped(t.nodes, NodeKey(r)),
       costs := t.costs + (if r.cost.Some? then [r.cost.value] else []),
       latencies := t.latencies + (if r.latency.Some? then [r.latency.value] else []),
       parser := t.parser + (if r.parserError then 1 else 0),
       automated := t.automated + (if r.judgeMode != HumanJudge then 1 else 0),
       human := t.human + (if r.judgeMode == HumanJudge then 1 else 0))
  }

  /** What its verdict adds; a failure counts under its worst mode only. */
  function AddVerdict(b: Bench, t: Tally, r: CountedRun): Tally
  {
    if r.verdict == NeedsReview then t.(reviewIds := t.reviewIds + [r.evalId])
    else if r.verdict != FailedVerdict then t
    else
      var failed := t.(failedIds := t.failedIds + [r.evalId]);
      if Covers(b, r, Critical) then failed.(critical := t.critical + 1)
      else if Covers(b, r, High) then failed.(high := t.high + 1)
      else failed
  }

  function AddRun(b: Bench, t: Tally, r: CountedRun): Tally
  {
    AddVerdict(b, AddPresence(b, t, r), r)
  }

  function TallyOf(b: Bench, runs: seq<CountedRun>): Tally
  {
    if runs == [] then EMPTY else AddRun(b, TallyOf(b, runs[..|runs| - 1]), runs[|runs| - 1])
  }

  function CountVerdict(runs: seq<CountedRun>, v: Verdict): nat
  {
    if runs == [] then 0 else CountVerdict(runs[..|runs| - 1], v) + if runs[|runs| - 1].verdict == v then 1 else 0
  }

  function CountErrors(runs: seq<CountedRun>): nat
  {
    if runs == [] then 0 else CountErrors(runs[..|runs| - 1]) + if runs[|runs| - 1].errored then 1 else 0
  }

  function Rate(f: Arithmetic, part: nat, whole: nat): real
  {
    if whole == 0 then 0.0 else f.round(part as real / whole as real)
  }

  function SumInts(xs: seq<int>): int
  {
    if xs == [] then 0 else SumInts(xs[..|xs| - 1]) + xs[|xs| - 1]
  }

  function RunsOf(b: Bench, e: Experiment): seq<CountedRun>
  {
    Filter(b.runs, (r: CountedRun) => r.runId in e.runIds)
  }

  function CalibrationsOf(b: Bench, e: Experiment): seq<CountedCalibration>
  {
    Filter(b.calibrations, (c: CountedCalibration) => c.runId in e.runIds)
  }

  predicate IsComparable(c: CountedCalibration) { c.agreement.Some? }

  predicate Disagrees(c: CountedCalibration) { c.agreement == Some(false) }

  function MetricsOf(b: Bench, e: Experiment): Metrics
  {
    var f, runs := b.arithmetic, RunsOf(b, e);
    var pass, fail, review := CountVerdict(runs, Passed), CountVerdict(runs, FailedVerdict), CountVerdict(runs, NeedsReview);
    var t, calibrated := TallyOf(b, runs), CalibrationsOf(b, e);
    var comparable := Filter(calibrated, IsComparable);
    var disagreements := |Filter(comparable, Disagrees)|;
    Metrics(|e.evalIds|, |runs|, pass, fail, review, CountErrors(runs), Rate(f, pass, |runs|), Rate(f, fail, |runs|),
            Rate(f, review, |runs|), if t.costs == [] then None else Some(f.sum(t.costs)),
            if t.latencies == [] then None else Some(f.round(SumInts(t.latencies) as real / |t.latencies| as real)),
            |calibrated|, disagreements,
            if comparable == [] then None else Some(f.round(disagreements as real / |comparable| as real)),
            t.(failedIds := FirstAppearances(t.failedIds), reviewIds := FirstAppearances(t.reviewIds)))
  }

  // ----- conservation ------------------------------------------------------------------------------

  ghost function Total(m: map<string, nat>): nat
  {
    if m == map[] then 0
    else
      assert exists k :: k in m;
      var k :| k in m;
      m[k] + Total(m - {k})
  }

  lemma {:induction false} TotalWithout(m: map<string, nat>, k: string)
    requires k in m
    ensures Total(m) == m[k] + Total(m - {k})
    decreases |m|
  {
    var c :| c in m && Total(m) == m[c] + Total(m - {c});
    if c != k {
      TotalWithout(m - {c}, k);
      TotalWithout(m - {k}, c);
      assert m - {c} - {k} == m - {k} - {c};
    }
  }

  lemma BumpedTotal(m: map<string, nat>, k: string)
    ensures Total(Bumped(m, k)) == Total(m) + 1
  {
    TotalWithout(Bumped(m, k), k);
    assert Bumped(m, k) - {k} == m - {k};
    if k in m { TotalWithout(m, k); } else { assert m - {k} == m; }
  }

  /** What one more run does to every count. */
  lemma AddRunAdds(b: Bench, t: Tally, r: CountedRun)
    ensures var q := AddRun(b, t, r);
      && q.scenarios == Bumped(t.scenarios, ScenarioOf(b.scenarios, r.evalId)) && q.nodes == Bumped(t.nodes, NodeKey(r))
      && q.automated + q.human == t.automated + t.human + 1
      && |q.failedIds| == |t.failedIds| + (if r.verdict == FailedVerdict then 1 else 0)
      && |q.reviewIds| == |t.reviewIds| + (if r.verdict == NeedsReview then 1 else 0)
      && q.critical + q.high <= t.critical + t.high + (if r.verdict == FailedVerdict then 1 else 0)
      && |q.costs| <= |t.costs| + 1 && |q.latencies| <= |t.latencies| + 1
  {
  }

  lemma {:induction false} VerdictsAddUp(runs: seq<CountedRun>)
    ensures CountVerdict(runs, Passed) + CountVerdict(runs, FailedVerdict) + CountVerdict(runs, NeedsReview) +
            CountVerdict(runs, NoVerdict) == |runs|
  {
    if runs != [] { VerdictsAddUp(runs[..|runs| - 1]); }
  }

  /** Scenario and node counts each add up to the runs; automated and human verdicts do; severe failures are failures. */
  lemma {:induction false} CountsAreConserved(b: Bench, runs: seq<CountedRun>)
    ensures var t := TallyOf(b, runs);
      && Total(t.scenarios) == |runs| && Total(t.nodes) == |runs|
      && t.automated + t.human == |runs|
      && t.critical + t.high <= CountVerdict(runs, FailedVerdict) == |t.failedIds|
      && |t.reviewIds| == CountVerdict(runs, NeedsReview)
      && |t.costs| <= |runs| && |t.latencies| <= |runs|
      && CountVerdict(runs, Passed) + CountVerdict(runs, FailedVerdict) + CountVerdict(runs, NeedsReview) +
         CountVerdict(runs, NoVerdict) == |runs|
  {
    VerdictsAddUp(runs);
    if runs != [] {
      var before, last := TallyOf(b, runs[..|runs| - 1]), runs[|runs| - 1];
      CountsAreConserved(b, runs[..|runs| - 1]);
      AddRunAdds(b, before, last);
      BumpedTotal(before.scenarios, ScenarioOf(b.scenarios, last.evalId));
      BumpedTotal(before.nodes, NodeKey(last));
    }
  }

  // ----- what the numbers mean ------------------------------------------------------------------------

  /** How many runs pass a test. */
  function Number(runs: seq<CountedRun>, test: CountedRun -> bool): nat { |Filter(runs, test)| }

  lemma NumberWithMore(runs: seq<CountedRun>, test: CountedRun -> bool)
    requires runs != []
    ensures Number(runs, test) == Number(runs[..|runs| - 1], test) + if test(runs[|runs| - 1]) then 1 else 0
  {
    FilterNext(runs, |runs| - 1, test);
    assert runs[..|runs|] == runs;
  }

  function HasVerdict(v: Verdict): CountedRun -> bool { (r: CountedRun) => r.verdict == v }

  function IsOfScenario(b: Bench, kind: string): CountedRun -> bool
  {
    (r: CountedRun) => ScenarioOf(b.scenarios, r.evalId) == kind
  }

  function IsOnNode(id: string): CountedRun -> bool
  {
    (r: CountedRun) => if r.node.None? || r.node.value == "" then id == UNKNOWN else id == r.node.value
  }

  predicate IsErrored(r: CountedRun) { r.errored }

  predicate HasParserError(r: CountedRun) { r.parserError }

  predicate IsHuman(r: CountedRun) { r.judgeMode == HumanJudge }

  predicate IsAutomated(r: CountedRun) { r.judgeMode in {RuleJudge, LlmJudge, Inherited} }

  predicate HasCost(r: CountedRun) { r.cost.Some? }

  predicate HasLatency(r: CountedRun) { r.latency.Some? }

  /** A failed run of a case with a critical failure mode. */
  function FailsCritically(b: Bench): CountedRun -> bool
  {
    (r: CountedRun) => r.verdict == FailedVerdict && Covers(b, r, Critical)
  }

  /** A failed run of a case with a high, but no critical failure mode. */
  function FailsHigh(b: Bench): CountedRun -> bool
  {
    (r: CountedRun) => r.verdict == FailedVerdict && Covers(b, r, High) && !Covers(b, r, Critical)
  }

  lemma {:induction false} VerdictsAreNumbers(runs: seq<CountedRun>, v: Verdict)
    ensures CountVerdict(runs, v) == Number(runs, HasVerdict(v))
  {
    if runs != [] {
      VerdictsAreNumbers(runs[..|runs| - 1], v);
      NumberWithMore(runs, HasVerdict(v));
    }
  }

  lemma {:induction false} ErrorsAreNumbers(runs: seq<CountedRun>)
    ensures CountErrors(runs) == Number(runs, IsErrored)
  {
    if runs != [] {
      ErrorsAreNumbers(runs[..|runs| - 1]);
      NumberWithMore(runs, IsErrored);
    }
  }

  /** The tally counts what its fields are named after: failures by their worst mode, parser errors and judges. */
  lemma {:induction false} TalliesAreNumbers(b: Bench, runs: seq<CountedRun>)
    ensures var t := TallyOf(b, runs);
      && t.critical == Number(runs, FailsCritically(b)) && t.high == Number(runs, FailsHigh(b))
      && t.parser == Number(runs, HasParserError)
      && t.human == Number(runs, IsHuman) && t.automated == Number(runs, IsAutomated)
  {
    if runs != [] {
      TalliesAreNumbers(b, runs[..|runs| - 1]);
      NumberWithMore(runs, FailsCritically(b));
      NumberWithMore(runs, FailsHigh(b));
      NumberWithMore(runs, HasParserError);
      NumberWithMore(runs, IsHuman);
      NumberWithMore(runs, IsAutomated);
    }
  }

  /** Each entry of the two tables counts its own scenario or node, and is there exactly if there is one to count. */
  lemma {:induction false} EntriesMeanWhatTheySay(b: Bench, runs: seq<CountedRun>, key: string)
    ensures var t := TallyOf(b, runs);
      && Number(runs, IsOfScenario(b, key)) == (if key in t.scenarios then t.scenarios[key] else 0)
      && Number(runs, IsOnNode(key)) == (if key in t.nodes then t.nodes[key] else 0)
      && (key in t.scenarios ==> t.scenarios[key] > 0) && (key in t.nodes ==> t.nodes[key] > 0)
  {
    if runs != [] {
      EntriesMeanWhatTheySay(b, runs[..|runs| - 1], key);
      AddRunAdds(b, TallyOf(b, runs[..|runs| - 1]), runs[|runs| - 1]);
      NumberWithMore(runs, IsOfScenario(b, key));
      NumberWithMore(runs, IsOnNode(key));
    }
  }

  function CostsOf(runs: seq<CountedRun>): seq<real>
  {
    Map(Filter(runs, HasCost), (r: CountedRun) => if r.cost.Some? then r.cost.value else 0.0)
  }

  function LatenciesOf(runs: seq<CountedRun>): seq<int>
  {
    Map(Filter(runs, HasLatency), (r: CountedRun) => if r.latency.Some? then r.latency.value else 0)
  }

  lemma AddRunLists(b: Bench, t: Tally, r: CountedRun)
    ensures var q := AddRun(b, t, r);
      && q.costs == t.costs + (if r.cost.Some? then [r.cost.value] else [])
      && q.latencies == t.latencies + (if r.latency.Some? then [r.latency.value] else [])
      && q.failedIds == t.failedIds + (if r.verdict == FailedVerdict then [r.evalId] else [])
      && q.reviewIds == t.reviewIds + (if r.verdict == NeedsReview then [r.evalId] else [])
  {
    assert forall xs: seq<string> {:trigger xs + []} :: xs + [] == xs;
  }

  lemma FiguresWithMore(runs: seq<CountedRun>)
    requires runs != []
    ensures var before, r := runs[..|runs| - 1], runs[|runs| - 1];
      && CostsOf(runs) == CostsOf(before) + (if r.cost.Some? then [r.cost.value] else [])
      && LatenciesOf(runs) == LatenciesOf(before) + (if r.latency.Some? then [r.latency.value] else [])
  {
    FilterNext(runs, |runs| - 1, HasCost);
    FilterNext(runs, |runs| - 1, HasLatency);
    assert runs[..|runs|] == runs;
  }

  /** The costs and latencies are those of the runs that have one, in the order of the runs. */
  lemma {:induction false} FiguresAreListed(b: Bench, runs: seq<CountedRun>)
    ensures TallyOf(b, runs).costs == CostsOf(runs) && TallyOf(b, runs).latencies == LatenciesOf(runs)
  {
    if runs != [] {
      FiguresAreListed(b, runs[..|runs| - 1]);
      AddRunLists(b, TallyOf(b, runs[..|runs| - 1]), runs[|runs| - 1]);
      FiguresWithMore(runs);
    }
  }

  lemma {:induction false} NamedCasesAre(b: Bench, runs: seq<CountedRun>, id: string)
    ensures id in TallyOf(b, runs).failedIds <==> exists r :: r in runs && r.verdict == FailedVerdict && r.evalId == id
    ensures id in TallyOf(b, runs).reviewIds <==> exists r :: r in runs && r.verdict == NeedsReview && r.evalId == id
  {
    if runs != [] {
      var n := |runs| - 1;
      NamedCasesAre(b, runs[..n], id);
      AddRunLists(b, TallyOf(b, runs[..n]), runs[n]);
      assert forall r :: r in runs <==> r in runs[..n] || r == runs[n];
    }
  }

  /** The last mode listed under an identifier decides its severity. */
  lemma {:induction false} SeverityIs(modes: seq<FailureMode>, id: string, s: Severity)
    ensures SeverityOf(modes, id) == Some(s) <==>
      exists i: nat :: i < |modes| && modes[i].id == id && modes[i].severity == s && forall j :: i < j < |modes| ==> modes[j].id != id
  {
    if modes != [] {
      var n := |modes| - 1;
      SeverityIs(modes[..n], id, s);
      if modes[n].id != id {
        if SeverityOf(modes, id) == Some(s) {
          var i: nat :| i < n && modes[..n][i].id == id && modes[..n][i].severity == s &&
            forall j :: i < j < n ==> modes[..n][j].id != id;
          assert modes[i].id == id;
          forall j | i < j < |modes| ensures modes[j].id != id { if j < n { assert modes[..n][j] == modes[j]; } }
        }
        if i: nat :| i < |modes| && modes[i].id == id && modes[i].severity == s && forall j :: i < j < |modes| ==> modes[j].id != id {
          assert modes[..n][i] == modes[i];
        }
      }
    }
  }

  /** Every figure of the metrics counts the runs, or the calibrations, of the experiment that it is named after. */
  lemma MetricsMeanWhatTheySay(b: Bench, e: Experiment)
    ensures var m, runs := MetricsOf(b, e), Filter(b.runs, (r: CountedRun) => r.runId in e.runIds);
      var calibrated := Filter(b.calibrations, (c: CountedCalibration) => c.runId in e.runIds);
      && m.totalCases == |e.evalIds| && m.runCount == |runs| && m.calibrated == |calibrated|
      && m.passCount == Number(runs, HasVerdict(Passed)) && m.failCount == Number(runs, HasVerdict(FailedVerdict))
      && m.reviewCount == Number(runs, HasVerdict(NeedsReview)) && m.errorCount == Number(runs, IsErrored)
      && m.passRate == Rate(b.arithmetic, m.passCount, |runs|) && m.failRate == Rate(b.arithmetic, m.failCount, |runs|)
      && m.reviewRate == Rate(b.arithmetic, m.reviewCount, |runs|)
      && m.tally.critical == Number(runs, FailsCritically(b)) && m.tally.high == Number(runs, FailsHigh(b))
      && m.tally.parser == Number(runs, HasParserError)
      && (m.totalCost.None? <==> CostsOf(runs) == []) && (m.totalCost.Some? ==> m.totalCost.value == b.arithmetic.sum(CostsOf(runs)))
      && (m.averageLatency.None? <==> LatenciesOf(runs) == [])
      && (m.averageLatency.Some? ==>
            m.averageLatency.value == b.arithmetic.round(SumInts(LatenciesOf(runs)) as real / |LatenciesOf(runs)| as real))
  {
    var runs := Filter(b.runs, (r: CountedRun) => r.runId in e.runIds);
    assert RunsOf(b, e) == runs;
    VerdictsAreNumbers(runs, Passed);
    VerdictsAreNumbers(runs, FailedVerdict);
    VerdictsAreNumbers(runs, NeedsReview);
    ErrorsAreNumbers(runs);
    TalliesAreNumbers(b, runs);
    FiguresAreListed(b, runs);
  }

  /** The metrics name each failed case, and each left to review, once. */
  lemma MetricsNameCases(b: Bench, e: Experiment, id: string)
    ensures var m, runs := MetricsOf(b, e), Filter(b.runs, (r: CountedRun) => r.runId in e.runIds);
      && (id in m.tally.failedIds <==> exists r :: r in runs && r.verdict == FailedVerdict && r.evalId == id)
      && (id in m.tally.reviewIds <==> exists r :: r in runs && r.verdict == NeedsReview && r.evalId == id)
      && (forall i, j :: 0 <= i < j < |m.tally.failedIds| ==> m.tally.failedIds[i] != m.tally.failedIds[j])
      && (forall i, j :: 0 <= i < j < |m.tally.reviewIds| ==> m.tally.reviewIds[i] != m.tally.reviewIds[j])
  {
    var runs := RunsOf(b, e);
    NamedCasesAre(b, runs, id);
    FirstAppearancesAre(TallyOf(b, runs).failedIds, id);
    FirstAppearancesAre(TallyOf(b, runs).reviewIds, id);
  }

  /** The disagreement figures look only at calibrations that can be compared with the automatic verdict. */
  lemma DisagreementsAre(b: Bench, e: Experiment)
    ensures var m := MetricsOf(b, e);
      var calibrated := Filter(b.calibrations, (c: CountedCalibration) => c.runId in e.runIds);
      var comparable := Filter(calibrated, (c: CountedCalibration) => c.agreement.Some?);
      && m.disagreements == |Filter(calibrated, (c: CountedCalibration) => c.agreement == Some(false))|
      && (m.disagreementRate.None? <==> comparable == [])
      && (m.disagreementRate.Some? ==>
            m.disagreementRate.value == b.arithmetic.round(m.disagreements as real / |comparable| as real))
  {
    var calibrated := CalibrationsOf(b, e);
    SameFilter(calibrated, IsComparable, (c: CountedCalibration) => c.agreement.Some?);
    DisagreeingAreComparable(calibrated);
    SameFilter(calibrated, Disagrees, (c: CountedCalibration) => c.agreement == Some(false));
  }

  lemma {:induction false} SameFilter<T(!new)>(items: seq<T>, p: T -> bool, q: T -> bool)
    requires forall x :: p(x) == q(x)
    ensures Filter(items, p) == Filter(items, q)
  {
    if items != [] { SameFilter(items[1..], p, q); }
  }

  lemma {:induction false} DisagreeingAreComparable(cs: seq<CountedCalibration>)
    ensures Filter(Filter(cs, IsComparable), Disagrees) == Filter(cs, Disagrees)
  {
    if cs != [] {
      DisagreeingAreComparable(cs[1..]);
      var rest := Filter(cs[1..], IsComparable);
      assert ([cs[0]] + rest)[1..] == rest && [] + rest == rest;
    }
  }

  method ComputeTally(b: Bench, runs: seq<CountedRun>) returns (t: Tally)
    ensures t == TallyOf(b, runs)
    ensures t.automated + t.human == |runs| && t.critical + t.high <= |t.failedIds|
  {
    t := EMPTY;
    for i := 0 to |runs|
      invariant t == TallyOf(b, runs[..i])
    {
      TallyNext(b, runs, i);
      t := CountRun(b, t, runs[i]);
    }
    assert runs[..|runs|] == runs;
    CountsAreConserved(b, runs);
  }

  /** One pass of the counting loop. */
  method CountRun(b: Bench, before: Tally, run: CountedRun) returns (t: Tally)
    ensures t == AddRun(b, before, run)
  {
    t := CountPresence(b, before, run);
    if run.verdict == FailedVerdict {
      t := t.(failedIds := t.failedIds + [run.evalId]);
      if Covers(b, run, Critical) {
        t := t.(critical := t.critical + 1);
      } else if Covers(b, run, High) {
        t := t.(high := t.high + 1);
      }
    } else if run.verdict == NeedsReview {
      t := t.(reviewIds := t.reviewIds + [run.evalId]);
    }
  }

  method CountPresence(b: Bench, before: Tally, run: CountedRun) returns (t: Tally)
    ensures t == AddPresence(b, before, run)
  {
    var kind, key := ScenarioOf(b.scenarios, run.evalId), NodeKey(run);
    t := before.(scenarios := Bumped(before.scenarios, kind), nodes := Bumped(before.nodes, key));
    if run.cost.Some? { t := t.(costs := t.costs + [run.cost.value]); }
    if run.latency.Some? { t := t.(latencies := t.latencies + [run.latency.value]); }
    if run.parserError { t := t.(parser := t.parser + 1); }
    if run.judgeMode == RuleJudge || run.judgeMode == LlmJudge || run.judgeMode == Inherited {
      t := t.(automated := t.automated + 1);
    }
    if run.judgeMode == HumanJudge { t := t.(human := t.human + 1); }
  }

  lemma TallyNext(b: Bench, runs: seq<CountedRun>, i: nat)
    requires i < |runs|
    ensures TallyOf(b, runs[..i + 1]) == AddRun(b, TallyOf(b, runs[..i]), runs[i])
  {
    assert runs[..i + 1][..i] == runs[..i];
  }

  // ----- comparing and deciding --------------------------------------------------------------------

  /** A fall of the pass rate by more than this is a regression; the platform has its nearest representable number. */
  const MAX_PASS_RATE_DROP := 0.05

  function ReasonIf(condition: bool, r: RegressionReason): seq<RegressionReason>
  {
    if condition then [r] else []
  }

  function Compared(f: Arithmetic, current: Metrics, baseline: Metrics, baselineId: string): Comparison
  {
    var rate := f.round(current.passRate - baseline.passRate);
    var critical := current.tally.critical - baseline.tally.critical;
    var high := current.tally.high - baseline.tally.high;
    var parser := current.tally.parser - baseline.tally.parser;
    var reasons := ReasonIf(rate < -f.round(MAX_PASS_RATE_DROP), PassRateDrop) + ReasonIf(critical > 0, CriticalIncrease) +
                   ReasonIf(high > 0, HighIncrease) + ReasonIf(parser > 0, ParserIncrease);
    Comparison(baselineId, Some(rate), Some(critical), Some(high), Some(parser),
               Some(current.reviewCount - baseline.reviewCount), reasons != [], reasons)
  }

  function AddReason(reasons: seq<RegressionReason>, condition: bool, r: RegressionReason): seq<RegressionReason>
  {
    if condition && r !in reasons then reasons + [r] else reasons
  }

  predicate Exceeds(delta: Option<int>) { delta.Some? && delta.value > 0 }

  /** The gate's own reading of a stored comparison, whoever stored it. */
  function GateReasons(f: Arithmetic, c: Comparison): seq<RegressionReason>
  {
    var drop := c.passRateDelta.Some? && c.passRateDelta.value < -f.round(MAX_PASS_RATE_DROP);
    AddReason(AddReason(AddReason(AddReason(c.reasons, drop, PassRateDrop), Exceeds(c.criticalDelta), CriticalIncrease),
                        Exceeds(c.highDelta), HighIncrease), Exceeds(c.parserDelta), ParserIncrease)
  }

  predicate RateDropped(f: Arithmetic, current: Metrics, baseline: Metrics)
  {
    f.round(current.passRate - baseline.passRate) < -f.round(MAX_PASS_RATE_DROP)
  }

  predicate MoreFailures(current: Metrics, baseline: Metrics)
  {
    || current.tally.critical > baseline.tally.critical
    || current.tally.high > baseline.tally.high
    || current.tally.parser > baseline.tally.parser
  }

  /** What a regression is, said once. */
  predicate IsWorse(f: Arithmetic, current: Metrics, baseline: Metrics)
  {
    RateDropped(f, current, baseline) || MoreFailures(current, baseline)
  }

  /** The two threshold checks agree on every pair of experiments: the gate finds nothing the comparison did not. */
  lemma ThresholdChecksAgree(f: Arithmetic, current: Metrics, baseline: Metrics, baselineId: string)
    ensures var c := Compared(f, current, baseline, baselineId);
      && GateReasons(f, c) == c.reasons
      && (c.detected <==> IsWorse(f, current, baseline))
      && (c.detected <==> GateReasons(f, c) != [])
  {
    var c := Compared(f, current, baseline, baselineId);
    assert PassRateDrop in c.reasons <==> RateDropped(f, current, baseline);
    assert CriticalIncrease in c.reasons <==> Exceeds(c.criticalDelta);
    assert HighIncrease in c.reasons <==> Exceeds(c.highDelta);
    assert ParserIncrease in c.reasons <==> Exceeds(c.parserDelta);
    assert c.reasons == [] <==> !(PassRateDrop in c.reasons || CriticalIncrease in c.reasons || HighIncrease in c.reasons ||
                                  ParserIncrease in c.reasons);
  }

  /** The comparison names its baseline and shows by how much each figure grew. */
  lemma ComparisonShows(f: Arithmetic, current: Metrics, baseline: Metrics, baselineId: string)
    ensures var c := Compared(f, current, baseline, baselineId);
      && c.baselineId == baselineId && c.passRateDelta == Some(f.round(current.passRate - baseline.passRate))
      && c.criticalDelta == Some(current.tally.critical - baseline.tally.critical)
      && c.highDelta == Some(current.tally.high - baseline.tally.high)
      && c.parserDelta == Some(current.tally.parser - baseline.tally.parser)
      && c.reviewDelta == Some(current.reviewCount - baseline.reviewCount)
  {
  }

  // ----- what rounding can change ------------------------------------------------------------------

  /** Rounding moves no number between -2 and 2 by more than `eps`. */
  ghost predicate IsAccurate(f: Arithmetic, eps: real)
  {
    0.0 <= eps <= 0.25 && forall x :: -2.0 <= x <= 2.0 ==> x - eps <= f.round(x) <= x + eps
  }

  function ExactRate(part: nat, whole: nat): (r: real)
    requires part <= whole
    ensures 0.0 <= r <= 1.0
  {
    if whole == 0 then 0.0 else part as real / whole as real
  }

  lemma {:induction false} VerdictsFit(runs: seq<CountedRun>, v: Verdict)
    ensures CountVerdict(runs, v) <= |runs|
  {
    if runs != [] { VerdictsFit(runs[..|runs| - 1], v); }
  }

  /** The rate of an experiment is its exact rate up to one rounding. */
  lemma RateIsNearlyExact(f: Arithmetic, eps: real, part: nat, whole: nat)
    requires IsAccurate(f, eps) && part <= whole
    ensures ExactRate(part, whole) - eps <= Rate(f, part, whole) <= ExactRate(part, whole) + eps
  {
    var _ := ExactRate(part, whole);
  }

  /**
    Rounding decides only at the threshold: a fall of the exact pass rate that exceeds five points by more than four
    roundings is flagged, and one that stays below by more than four roundings is not.
   */
  lemma RoundingDecidesOnlyAtTheThreshold(b: Bench, e: Experiment, base: Experiment, eps: real) returns (drop: real)
    requires IsAccurate(b.arithmetic, eps)
    ensures MetricsOf(b, e).passCount <= MetricsOf(b, e).runCount && MetricsOf(b, base).passCount <= MetricsOf(b, base).runCount
    ensures drop == ExactRate(MetricsOf(b, base).passCount, MetricsOf(b, base).runCount) -
                    ExactRate(MetricsOf(b, e).passCount, MetricsOf(b, e).runCount)
    ensures drop > MAX_PASS_RATE_DROP + 4.0 * eps ==> RateDropped(b.arithmetic, MetricsOf(b, e), MetricsOf(b, base))
    ensures drop < MAX_PASS_RATE_DROP - 4.0 * eps ==> !RateDropped(b.arithmetic, MetricsOf(b, e), MetricsOf(b, base))
  {
    VerdictsFit(RunsOf(b, e), Passed);
    VerdictsFit(RunsOf(b, base), Passed);
    var m, n := MetricsOf(b, e), MetricsOf(b, base);
    RateIsNearlyExact(b.arithmetic, eps, m.passCount, m.runCount);
    RateIsNearlyExact(b.arithmetic, eps, n.passCount, n.runCount);
    drop := ExactRate(n.passCount, n.runCount) - ExactRate(m.passCount, m.runCount);
  }

  /** The binary64 numbers nearest to 19/20 and to 1/20. */
  const NEAREST_TO_19_20 := 4278419646001971.0 / 4503599627370496.0
  const NEAREST_TO_1_20 := 3602879701896397.0 / 72057594037927936.0

  /** 19 passes of 20 after 20 of 20 is a fall of exactly five points: no regression exactly, but one in binary64. */
  lemma FallOfFivePointsIsFlagged(f: Arithmetic, current: Metrics, baseline: Metrics)
    requires f.round(19.0 / 20.0) == NEAREST_TO_19_20 && f.round(1.0) == 1.0 && f.round(MAX_PASS_RATE_DROP) == NEAREST_TO_1_20
    requires f.round(NEAREST_TO_19_20 - 1.0) == NEAREST_TO_19_20 - 1.0
    requires current.passRate == Rate(f, 19, 20) && baseline.passRate == Rate(f, 20, 20)
    ensures RateDropped(f, current, baseline) && !(ExactRate(20, 20) - ExactRate(19, 20) > MAX_PASS_RATE_DROP)
  {
  }

  function FindExperiment(es: seq<Experiment>, id: string): (r: Option<Experiment>)
    ensures r.Some? ==> r.value in es && r.value.id == id
    ensures r.None? <==> forall e :: e in es ==> e.id != id
  {
    if es == [] then None else if es[0].id == id then Some(es[0]) else FindExperiment(es[1..], id)
  }

  /** Newest first, in the listed order among equals. */
  function InsertByTime(e: Experiment, sorted: seq<Experiment>): seq<Experiment>
  {
    if sorted == [] || e.createdAt >= sorted[0].createdAt then [e] + sorted else [sorted[0]] + InsertByTime(e, sorted[1..])
  }

  function SortByTime(es: seq<Experiment>): seq<Experiment>
  {
    if es == [] then [] else InsertByTime(es[0], SortByTime(es[1..]))
  }

  ghost predicate NewestFirst(es: seq<Experiment>)
  {
    forall i, j :: 0 <= i < j < |es| ==> es[j].createdAt <= es[i].createdAt
  }

  lemma {:induction false} InsertByTimeSorts(e: Experiment, sorted: seq<Experiment>)
    requires NewestFirst(sorted)
    ensures NewestFirst(InsertByTime(e, sorted))
    ensures forall x :: x in InsertByTime(e, sorted) <==> x == e || x in sorted
  {
    if sorted != [] {
      assert sorted == [sorted[0]] + sorted[1..];
      if e.createdAt < sorted[0].createdAt {
        InsertByTimeSorts(e, sorted[1..]);
        forall x | x in InsertByTime(e, sorted[1..]) ensures x.createdAt <= sorted[0].createdAt {}
      }
    }
  }

  lemma {:induction false} SortByTimeSorts(es: seq<Experiment>)
    ensures NewestFirst(SortByTime(es))
    ensures forall x :: x in SortByTime(es) <==> x in es
  {
    if es != [] {
      SortByTimeSorts(es[1..]);
      InsertByTimeSorts(es[0], SortByTime(es[1..]));
      assert es == [es[0]] + es[1..];
    }
  }

  datatype GateDataset = GateDataset(id: string, relevant: bool, caseIds: seq<string>, baselineId: string)

  function FirstOther(es: seq<Experiment>, baselineId: string): Option<Experiment>
  {
    if es == [] then None else if es[0].id != baselineId then Some(es[0]) else FirstOther(es[1..], baselineId)
  }

  function LatestCurrent(es: seq<Experiment>, d: GateDataset): Option<Experiment>
  {
    FirstOther(SortByTime(Filter(es, (e: Experiment) => e.datasetId == d.id)), d.baselineId)
  }

  predicate IsCurrent(es: seq<Experiment>, d: GateDataset, e: Experiment)
  {
    e in es && e.datasetId == d.id && e.id != d.baselineId
  }

  lemma {:induction false} FirstOtherIsNewest(es: seq<Experiment>, baselineId: string)
    requires NewestFirst(es)
    ensures var r := FirstOther(es, baselineId);
      && (r.None? <==> forall e :: e in es ==> e.id == baselineId)
      && (r.Some? ==> r.value in es && r.value.id != baselineId &&
                      forall e :: e in es && e.id != baselineId ==> e.createdAt <= r.value.createdAt)
  {
    if es != [] {
      assert es == [es[0]] + es[1..];
      FirstOtherIsNewest(es[1..], baselineId);
    }
  }

  /** The experiment a decision is about: the newest one of the data set that is not the baseline. */
  lemma LatestCurrentIsNewest(es: seq<Experiment>, d: GateDataset)
    ensures var r := LatestCurrent(es, d);
      && (r.None? <==> forall e :: !IsCurrent(es, d, e))
      && (r.Some? ==> IsCurrent(es, d, r.value) && forall e :: IsCurrent(es, d, e) ==> e.createdAt <= r.value.createdAt)
  {
    var own := Filter(es, (e: Experiment) => e.datasetId == d.id);
    FilterMembers(es, (e: Experiment) => e.datasetId == d.id);
    SortByTimeSorts(own);
    FirstOtherIsNewest(SortByTime(own), d.baselineId);
    forall e: Experiment ensures IsCurrent(es, d, e) <==> e in SortByTime(own) && e.id != d.baselineId {}
  }

  lemma {:induction false} FirstOtherInserted(e: Experiment, sorted: seq<Experiment>, baselineId: string)
    requires NewestFirst(sorted)
    ensures var r := FirstOther(sorted, baselineId);
      FirstOther(InsertByTime(e, sorted), baselineId) ==
        if e.id != baselineId && (r.None? || r.value.createdAt <= e.createdAt) then Some(e) else r
  {
    FirstOtherIsNewest(sorted, baselineId);
    if sorted == [] || e.createdAt >= sorted[0].createdAt {
      assert ([e] + sorted)[1..] == sorted;
    } else {
      FirstOtherInserted(e, sorted[1..], baselineId);
      assert ([sorted[0]] + InsertByTime(e, sorted[1..]))[1..] == InsertByTime(e, sorted[1..]);
    }
  }

  /** Of several that are equally new it is the first listed. */
  lemma {:induction false} LatestCurrentIsFirst(es: seq<Experiment>, d: GateDataset) returns (i: nat)
    requires LatestCurrent(es, d).Some?
    ensures i < |es| && es[i] == LatestCurrent(es, d).value && IsCurrent(es, d, es[i])
    ensures forall j :: 0 <= j < i && IsCurrent(es, d, es[j]) ==> es[j].createdAt < es[i].createdAt
  {
    LatestCurrentIsNewest(es, d);
    var own := Filter(es[1..], (e: Experiment) => e.datasetId == d.id);
    SortByTimeSorts(own);
    if es[0].datasetId == d.id {
      assert ([es[0]] + own)[1..] == own;
      FirstOtherInserted(es[0], SortByTime(own), d.baselineId);
    } else {
      assert [] + own == own;
    }
    if IsCurrent(es, d, es[0]) && LatestCurrent(es, d) == Some(es[0]) {
      i := 0;
    } else {
      i := LatestCurrentIsFirst(es[1..], d);
      i := i + 1;
      forall j | 0 <= j < i && IsCurrent(es, d, es[j]) ensures es[j].createdAt < es[i].createdAt {
        if j > 0 { assert es[j] == es[1..][j - 1] && IsCurrent(es[1..], d, es[j]); }
      }
    }
  }

  datatype DecisionStatus =
    | NotGateRelevant | DatasetEmpty | MissingBaseline | MissingCurrentExperiment | ExperimentNotCompleted
    | ExperimentStale | MissingComparison | RegressionDetected | PassedGate

  datatype RegressionDecision = RegressionDecision(status: DecisionStatus, blocking: bool, severe: bool, experimentId: string)

  function Baseline(es: seq<Experiment>, d: GateDataset): Option<Experiment>
  {
    if d.baselineId == "" then None else FindExperiment(es, d.baselineId)
  }

  function DecideRegression(f: Arithmetic, es: seq<Experiment>, d: GateDataset): RegressionDecision
  {
    if !d.relevant then RegressionDecision(NotGateRelevant, false, false, "")
    else if d.caseIds == [] then RegressionDecision(DatasetEmpty, true, false, "")
    else if Baseline(es, d).None? then RegressionDecision(MissingBaseline, true, false, "")
    else
      match LatestCurrent(es, d)
      case None => RegressionDecision(MissingCurrentExperiment, true, false, "")
      case Some(e) => DecideExperiment(f, e, d)
  }

  function DecideExperiment(f: Arithmetic, e: Experiment, d: GateDataset): RegressionDecision
  {
    if !e.completed then RegressionDecision(ExperimentNotCompleted, true, false, e.id)
    else if !SameCases(e, d) then RegressionDecision(ExperimentStale, true, false, e.id)
    else if e.comparison.None? then RegressionDecision(MissingComparison, true, false, e.id)
    else if e.comparison.value.detected || GateReasons(f, e.comparison.value) != [] then
      RegressionDecision(RegressionDetected, true, Exceeds(e.comparison.value.criticalDelta), e.id)
    else RegressionDecision(PassedGate, false, false, e.id)
  }

  predicate SameCases(e: Experiment, d: GateDataset) { multiset(e.evalIds) == multiset(d.caseIds) }

  /**
    A relevant data set passes exactly if it has cases and a baseline, and its newest other experiment is completed
    on exactly its cases, with a comparison that shows no regression.
   */
  lemma GatePassesIff(f: Arithmetic, es: seq<Experiment>, d: GateDataset)
    requires d.relevant
    ensures !DecideRegression(f, es, d).blocking <==> DecideRegression(f, es, d).status == PassedGate
    ensures DecideRegression(f, es, d).status == PassedGate <==>
      && d.caseIds != [] && d.baselineId != "" && (exists b :: b in es && b.id == d.baselineId)
      && exists e :: IsCurrent(es, d, e) && LatestCurrent(es, d) == Some(e) && e.completed && SameCases(e, d) &&
           e.comparison.Some? && !e.comparison.value.detected && GateReasons(f, e.comparison.value) == []
  {
    LatestCurrentIsNewest(es, d);
  }

  /** The decision names the first thing that is not in order, blocks exactly for that, and is severe for critical failures. */
  lemma DecisionSaysWhy(f: Arithmetic, es: seq<Experiment>, d: GateDataset)
    ensures var r := DecideRegression(f, es, d);
      var based := d.relevant && d.caseIds != [] && exists b :: b in es && b.id == d.baselineId != "";
      && (r.status == NotGateRelevant <==> !d.relevant)
      && (r.status == DatasetEmpty <==> d.relevant && d.caseIds == [])
      && (r.status == MissingBaseline <==> d.relevant && d.caseIds != [] && !based)
      && (r.status == MissingCurrentExperiment <==> based && forall e :: !IsCurrent(es, d, e))
      && (r.experimentId != "" ==> based && LatestCurrent(es, d).Some? && r.experimentId == LatestCurrent(es, d).value.id)
      && (based && LatestCurrent(es, d).Some? ==>
            var e := LatestCurrent(es, d).value;
            var regressed := e.comparison.Some? && (e.comparison.value.detected || GateReasons(f, e.comparison.value) != []);
            && r.experimentId == e.id
            && r.status == if !e.completed then ExperimentNotCompleted
                           else if multiset(e.evalIds) != multiset(d.caseIds) then ExperimentStale
                           else if e.comparison.None? then MissingComparison
                           else if regressed then RegressionDetected
                           else PassedGate)
      && (r.blocking <==> r.status !in {NotGateRelevant, PassedGate})
      && (r.severe ==> r.status == RegressionDetected)
      && (r.status == RegressionDetected ==>
            (r.severe <==> LatestCurrent(es, d).value.comparison.value.criticalDelta.Some? &&
                           LatestCurrent(es, d).value.comparison.value.criticalDelta.value > 0))
  {
    LatestCurrentIsNewest(es, d);
  }

  /** Everything else in order, the decision rests on the stored comparison of this experiment. */
  predicate AwaitsComparison(es: seq<Experiment>, d: GateDataset, e: Experiment)
  {
    && d.relevant && d.caseIds != [] && Baseline(es, d).Some?
    && LatestCurrent(es, d) == Some(e) && e.completed && SameCases(e, d)
  }

  /** If the comparison was made by the comparison service, the gate blocks on it exactly if the experiment is worse. */
  lemma StoredComparisonDecides(f: Arithmetic, es: seq<Experiment>, d: GateDataset, e: Experiment,
                                current: Metrics, baseline: Metrics, baselineId: string)
    requires AwaitsComparison(es, d, e) && e.comparison == Some(Compared(f, current, baseline, baselineId))
    ensures DecideRegression(f, es, d).blocking <==> IsWorse(f, current, baseline)
  {
    ThresholdChecksAgree(f, current, baseline, baselineId);
  }

  // ----- which baseline was compared ----------------------------------------------------------------

  /** The experiment with the baseline of its comparison forgotten. */
  function Forget(e: Experiment): Experiment
  {
    if e.comparison.Some? then e.(comparison := Some(e.comparison.value.(baselineId := ""))) else e
  }

  function ForgetAll(es: seq<Experiment>): (r: seq<Experiment>)
    ensures |r| == |es| && forall i :: 0 <= i < |es| ==> r[i] == Forget(es[i])
  {
    seq(|es|, i requires 0 <= i < |es| => Forget(es[i]))
  }

  lemma {:induction false} ForgettingKeepsOwn(es: seq<Experiment>, id: string)
    ensures Filter(ForgetAll(es), (e: Experiment) => e.datasetId == id) == ForgetAll(Filter(es, (e: Experiment) => e.datasetId == id))
  {
    if es != [] {
      ForgettingKeepsOwn(es[1..], id);
      assert ForgetAll(es)[1..] == ForgetAll(es[1..]);
    }
  }

  lemma {:induction false} ForgettingKeepsPlace(e: Experiment, sorted: seq<Experiment>)
    ensures InsertByTime(Forget(e), ForgetAll(sorted)) == ForgetAll(InsertByTime(e, sorted))
  {
    if sorted != [] {
      ForgettingKeepsPlace(e, sorted[1..]);
      assert ForgetAll(sorted)[1..] == ForgetAll(sorted[1..]);
    }
  }

  lemma {:induction false} ForgettingKeepsOrder(es: seq<Experiment>)
    ensures SortByTime(ForgetAll(es)) == ForgetAll(SortByTime(es))
  {
    if es != [] {
      ForgettingKeepsOrder(es[1..]);
      assert ForgetAll(es)[1..] == ForgetAll(es[1..]);
      ForgettingKeepsPlace(es[0], SortByTime(es[1..]));
    }
  }

  lemma {:induction false} ForgettingKeepsFirst(es: seq<Experiment>, baselineId: string)
    ensures var r := FirstOther(es, baselineId);
      FirstOther(ForgetAll(es), baselineId) == if r.Some? then Some(Forget(r.value)) else None
  {
    if es != [] {
      ForgettingKeepsFirst(es[1..], baselineId);
      assert ForgetAll(es)[1..] == ForgetAll(es[1..]);
    }
  }

  lemma {:induction false} ForgettingKeepsBaseline(es: seq<Experiment>, id: string)
    ensures FindExperiment(ForgetAll(es), id).Some? <==> FindExperiment(es, id).Some?
  {
    if es != [] {
      ForgettingKeepsBaseline(es[1..], id);
      assert ForgetAll(es)[1..] == ForgetAll(es[1..]);
    }
  }

  lemma DecisionForgetsBaselines(f: Arithmetic, es: seq<Experiment>, d: GateDataset)
    ensures DecideRegression(f, ForgetAll(es), d) == DecideRegression(f, es, d)
  {
    var own := Filter(es, (e: Experiment) => e.datasetId == d.id);
    ForgettingKeepsOwn(es, d.id);
    ForgettingKeepsOrder(own);
    ForgettingKeepsFirst(SortByTime(own), d.baselineId);
    ForgettingKeepsBaseline(es, d.baselineId);
  }

  /**
    The decision does not look at which baseline a stored comparison was made with: for every list of experiments
    and every data set, giving any comparison any other baseline leaves the decision as it is.
   */
  lemma DecisionIgnoresComparedBaseline(f: Arithmetic, es: seq<Experiment>, d: GateDataset, i: nat, other: string)
    requires i < |es| && es[i].comparison.Some?
    ensures var relabelled := es[i].(comparison := Some(es[i].comparison.value.(baselineId := other)));
      DecideRegression(f, es[i := relabelled], d) == DecideRegression(f, es, d)
  {
    var relabelled := es[i].(comparison := Some(es[i].comparison.value.(baselineId := other)));
    DecisionForgetsBaselines(f, es, d);
    DecisionForgetsBaselines(f, es[i := relabelled], d);
    assert ForgetAll(es[i := relabelled]) == ForgetAll(es);
  }

  /**
    So what a pass means depends on the caller: if the comparison names the data set's baseline and was made by the
    service from the metrics both experiments have now, the gate blocks exactly if the experiment is worse than that
    baseline.
   */
  lemma OwnBaselineComparisonDecides(b: Bench, d: GateDataset, e: Experiment)
    requires AwaitsComparison(b.experiments, d, e)
    requires e.comparison.Some? && e.comparison.value.baselineId == d.baselineId
    requires var base := Baseline(b.experiments, d).value;
      e.comparison.value == Compared(b.arithmetic, MetricsOf(b, e), MetricsOf(b, base), base.id)
    ensures DecideRegression(b.arithmetic, b.experiments, d).blocking <==>
      IsWorse(b.arithmetic, MetricsOf(b, e), MetricsOf(b, Baseline(b.experiments, d).value))
  {
    var base := Baseline(b.experiments, d).value;
    StoredComparisonDecides(b.arithmetic, b.experiments, d, e, MetricsOf(b, e), MetricsOf(b, base), base.id);
  }

  /** Zero stays zero and the threshold stays positive. */
  predicate IsSane(f: Arithmetic)
  {
    f.round(0.0) == 0.0 && f.round(MAX_PASS_RATE_DROP) > 0.0
  }

  /** A failed run of a case that covers the one critical mode. */
  const BAD_RUN := CountedRun("run", "case", None, FailedVerdict, RuleJudge, false, false, ["mode"], None, None)

  const CRITICAL_MODE := FailureMode("mode", "", Critical, [])

  lemma BadRunIsCritical(b: Bench, e: Experiment)
    requires b.runs == [BAD_RUN] && b.modes == [CRITICAL_MODE]
    ensures MetricsOf(b, e).tally.critical == if "run" in e.runIds then 1 else 0
  {
    assert SeverityOf(b.modes, "mode") == Some(Critical);
    assert "mode" in BAD_RUN.coveredModes && Covers(b, BAD_RUN, Critical);
    assert [BAD_RUN][..0] == [];
    FilterOne(BAD_RUN, (r: CountedRun) => r.runId in e.runIds);
    assert RunsOf(b, e) == if "run" in e.runIds then [BAD_RUN] else [];
    assert TallyOf(b, [BAD_RUN]) == AddRun(b, EMPTY, BAD_RUN);
    assert AddRun(b, EMPTY, BAD_RUN).critical == 1;
  }

  /**
    And for every other baseline the pass can be wrong: in some session it rests on a comparison the service made
    with that baseline, although the experiment is worse than the data set's own.
   */
  lemma OtherBaselineMayHideARegression(f: Arithmetic, d: GateDataset, other: string) returns (b: Bench)
    requires IsSane(f) && d.relevant && d.caseIds != [] && d.baselineId != "" && other != d.baselineId
    ensures b.arithmetic == f && |b.experiments| == 3
    ensures var own, third, e := b.experiments[0], b.experiments[1], b.experiments[2];
      && own.id == d.baselineId && third.id == other && e.id != own.id && e.id != third.id
      && AwaitsComparison(b.experiments, d, e)
      && e.comparison == Some(Compared(f, MetricsOf(b, e), MetricsOf(b, third), other))
      && DecideRegression(f, b.experiments, d).status == PassedGate
      && IsWorse(f, MetricsOf(b, e), MetricsOf(b, own))
  {
    b := HiddenBench(f, d, other);
    var own, third, e := b.experiments[0], b.experiments[1], b.experiments[2];
    assert |e.id| > |own.id| && |e.id| > |third.id|;
    HiddenMetrics(f, d, other);
    PassesOn(f, d, own, third, e);
    ComparesClean(f, MetricsOf(b, e), other);
  }

  /** The baseline ran nothing; the other experiment and the one decided on share the run of a critical failure. */
  function HiddenBench(f: Arithmetic, d: GateDataset, other: string): (b: Bench)
    ensures |b.experiments| == 3
  {
    var own := Experiment(d.baselineId, d.id, true, d.caseIds, [], 0, None, None);
    var third := Experiment(other, d.id, true, d.caseIds, ["run"], 0, None, None);
    var bare := Experiment(d.baselineId + other + "+", d.id, true, d.caseIds, ["run"], 1, None, None);
    var empty := Bench([BAD_RUN], [], [CRITICAL_MODE], [], [], f);
    var comparison := Compared(f, MetricsOf(empty, bare), MetricsOf(empty, third), other);
    empty.(experiments := [own, third, bare.(comparison := Some(comparison))])
  }

  lemma HiddenMetrics(f: Arithmetic, d: GateDataset, other: string)
    ensures var b := HiddenBench(f, d, other);
      var own, third, e := b.experiments[0], b.experiments[1], b.experiments[2];
      && MetricsOf(b, third) == MetricsOf(b, e)
      && e.comparison == Some(Compared(f, MetricsOf(b, e), MetricsOf(b, e), other))
      && MoreFailures(MetricsOf(b, e), MetricsOf(b, own))
  {
    var b := HiddenBench(f, d, other);
    var own, third, e := b.experiments[0], b.experiments[1], b.experiments[2];
    var empty := b.(experiments := []);
    SameMetrics(empty, b, e.(comparison := None), e);
    SameMetrics(empty, b, third, third);
    SameMetrics(empty, b, third, e);
    BadRunIsCritical(b, e);
    BadRunIsCritical(b, own);
  }

  /** An experiment that is compared with its equal is not worse. */
  lemma ComparesClean(f: Arithmetic, m: Metrics, baselineId: string)
    requires IsSane(f)
    ensures var c := Compared(f, m, m, baselineId); !c.detected && GateReasons(f, c) == []
  {
    ThresholdChecksAgree(f, m, m, baselineId);
  }

  /** Of these three the decision is about the last. */
  lemma PassesOn(f: Arithmetic, d: GateDataset, own: Experiment, third: Experiment, e: Experiment)
    requires d.relevant && d.caseIds != [] && d.baselineId != ""
    requires own.id == d.baselineId && third.id != own.id && e.id != own.id
    requires own.datasetId == d.id && third.datasetId == d.id && e.datasetId == d.id
    requires third.createdAt < e.createdAt && e.completed && SameCases(e, d)
    ensures AwaitsComparison([own, third, e], d, e)
  {
    var es := [own, third, e];
    LatestCurrentIsNewest(es, d);
    assert es[2] == e && es[1] == third && es[0] == own;
    assert e in es && IsCurrent(es, d, e);
  }

  // ----- the services ------------------------------------------------------------------------------

  datatype MetricsError = ExperimentMissing

  function ExperimentIndex(es: seq<Experiment>, id: string): (i: nat)
    ensures i <= |es|
    ensures i < |es| ==> es[i].id == id
    ensures forall j :: 0 <= j < i ==> es[j].id != id
  {
    FirstIndex(es, (e: Experiment) => e.id == id)
  }

  function Measured(es: seq<Experiment>, i: nat, m: Metrics): seq<Experiment>
    requires i < |es|
  {
    es[i := es[i].(metrics := Some(m))]
  }

  class MetricsService {
    var bench: Bench

    constructor (bench: Bench)
      ensures this.bench == bench
    {
      this.bench := bench;
    }

    method ComputeExperimentMetrics(id: string) returns (r: Result<Metrics, MetricsError>)
      modifies this
      ensures var b := old(bench);
        var i := ExperimentIndex(b.experiments, id);
        if i == |b.experiments| then r == Err(ExperimentMissing) && bench == b
        else r == Ok(MetricsOf(b, b.experiments[i])) && bench == b.(experiments := Measured(b.experiments, i, r.value))
    {
      var i := ExperimentIndex(bench.experiments, id);
      if i == |bench.experiments| { return Err(ExperimentMissing); }
      var f, e := bench.arithmetic, bench.experiments[i];
      var runs := RunsOf(bench, e);
      var pass, fail := CountVerdict(runs, Passed), CountVerdict(runs, FailedVerdict);
      var review, errors := CountVerdict(runs, NeedsReview), CountErrors(runs);
      var t := ComputeTally(bench, runs);
      t := t.(failedIds := FirstAppearances(t.failedIds), reviewIds := FirstAppearances(t.reviewIds));
      var calibrated := CalibrationsOf(bench, e);
      var comparable := Filter(calibrated, IsComparable);
      var disagreements := |Filter(comparable, Disagrees)|;
      var totalCost, averageLatency, disagreementRate := None, None, None;
      if t.costs != [] { totalCost := Some(f.sum(t.costs)); }
      if t.latencies != [] { averageLatency := Some(f.round(SumInts(t.latencies) as real / |t.latencies| as real)); }
      if comparable != [] { disagreementRate := Some(f.round(disagreements as real / |comparable| as real)); }
      var m := Metrics(|e.evalIds|, |runs|, pass, fail, review, errors, Rate(f, pass, |runs|), Rate(f, fail, |runs|),
                       Rate(f, review, |runs|), totalCost, averageLatency, |calibrated|, disagreements, disagreementRate, t);
      bench := bench.(experiments := bench.experiments[i := e.(metrics := Some(m))]);
      r := Ok(m);
    }

    method CompareExperiments(currentId: string, baselineId: string) returns (r: Result<Comparison, MetricsError>)
      modifies this
      ensures var b, es := old(bench), old(bench).experiments;
        var i, k := ExperimentIndex(es, currentId), ExperimentIndex(es, baselineId);
        if i == |es| || k == |es| then r == Err(ExperimentMissing) && bench == b
        else
          var measured := Measured(Measured(es, i, MetricsOf(b, es[i])), k, MetricsOf(b, es[k]));
          && r == Ok(Compared(b.arithmetic, MetricsOf(b, es[i]), MetricsOf(b, es[k]), baselineId))
          && bench == b.(experiments := measured[i := measured[i].(comparison := Some(r.value))])
          && (r.value.detected <==> IsWorse(b.arithmetic, MetricsOf(b, es[i]), MetricsOf(b, es[k])))
    {
      ghost var b := bench;
      var i, k := ExperimentIndex(bench.experiments, currentId), ExperimentIndex(bench.experiments, baselineId);
      if i == |bench.experiments| || k == |bench.experiments| { return Err(ExperimentMissing); }
      var current := ComputeExperimentMetrics(currentId);
      SameIndex(b.experiments, bench.experiments, baselineId);
      SameMetrics(b, bench, b.experiments[k], bench.experiments[k]);
      var baseline := ComputeExperimentMetrics(baselineId);
      ThresholdChecksAgree(b.arithmetic, current.value, baseline.value, baselineId);
      var c := CompareMetrics(bench.arithmetic, current.value, baseline.value, baselineId);
      bench := bench.(experiments := bench.experiments[i := bench.experiments[i].(comparison := Some(c))]);
      r := Ok(c);
    }

    static method CompareMetrics(f: Arithmetic, current: Metrics, baseline: Metrics, baselineId: string)
      returns (c: Comparison)
      ensures c == Compared(f, current, baseline, baselineId)
    {
      var rate := f.round(current.passRate - baseline.passRate);
      var critical, high := current.tally.critical - baseline.tally.critical, current.tally.high - baseline.tally.high;
      var review, parser := current.reviewCount - baseline.reviewCount, current.tally.parser - baseline.tally.parser;
      var reasons := [];
      if rate < -f.round(MAX_PASS_RATE_DROP) { reasons := reasons + [PassRateDrop]; }
      if critical > 0 { reasons := reasons + [CriticalIncrease]; }
      if high > 0 { reasons := reasons + [HighIncrease]; }
      if parser > 0 { reasons := reasons + [ParserIncrease]; }
      c := Comparison(baselineId, Some(rate), Some(critical), Some(high), Some(parser), Some(review), reasons != [], reasons);
    }
  }

  lemma SameIndex(es: seq<Experiment>, after: seq<Experiment>, id: string)
    requires |after| == |es| && forall i :: 0 <= i < |es| ==> after[i].id == es[i].id
    ensures ExperimentIndex(after, id) == ExperimentIndex(es, id)
  {
  }

  lemma SameAddition(b: Bench, after: Bench, t: Tally, r: CountedRun)
    requires after.scenarios == b.scenarios && after.modes == b.modes
    ensures AddRun(after, t, r) == AddRun(b, t, r)
  {
    assert Covers(after, r, Critical) <==> Covers(b, r, Critical);
    assert Covers(after, r, High) <==> Covers(b, r, High);
  }

  lemma {:induction false} SameTally(b: Bench, after: Bench, runs: seq<CountedRun>)
    requires after.scenarios == b.scenarios && after.modes == b.modes
    ensures TallyOf(after, runs) == TallyOf(b, runs)
  {
    if runs != [] {
      SameTally(b, after, runs[..|runs| - 1]);
      SameAddition(b, after, TallyOf(b, runs[..|runs| - 1]), runs[|runs| - 1]);
    }
  }

  lemma SameMetrics(b: Bench, after: Bench, e: Experiment, e': Experiment)
    requires after == b.(experiments := after.experiments)
    requires e'.evalIds == e.evalIds && e'.runIds == e.runIds
    ensures MetricsOf(after, e') == MetricsOf(b, e)
  {
    assert RunsOf(after, e') == RunsOf(b, e);
    SameTally(b, after, RunsOf(b, e));
  }
}
