/**
  Release evidence: which test cases are required, when a run is valid evidence, and which single completed
  experiment is the release batch.
 */
module ReleaseEvidence {
  import opened Prelude
  import opened Models
  import opened Lineage
  import opened ReleaseModels
  import opened EvaluationVersion
  import opened RiskTreatments

  // ----- required cases ---------------------------------------------------------

  /** Puts an identifier in its place in an increasing list, unless it is there already. */
  function InsertText(x: string, sorted: seq<string>): seq<string>
  {
    if sorted == [] then [x]
    else if x == sorted[0] then sorted
    else if TextLe(x, sorted[0]) then [x] + sorted
    else [sorted[0]] + InsertText(x, sorted[1..])
  }

  /** The identifiers in increasing order, each once. */
  function SortedUnique(ids: seq<string>): seq<string>
  {
    if ids == [] then [] else InsertText(ids[0], SortedUnique(ids[1..]))
  }

  lemma {:induction false} InsertTextMembers(x: string, sorted: seq<string>, y: string)
    ensures y in InsertText(x, sorted) <==> y == x || y in sorted
  {
    if sorted != [] {
      InsertTextMembers(x, sorted[1..], y);
      assert sorted == [sorted[0]] + sorted[1..];
    }
  }

  lemma {:induction false} SortedUniqueMembers(ids: seq<string>, y: string)
    ensures y in SortedUnique(ids) <==> y in ids
  {
    if ids != [] {
      SortedUniqueMembers(ids[1..], y);
      InsertTextMembers(ids[0], SortedUnique(ids[1..]), y);
    }
  }

  ghost predicate Increasing(ids: seq<string>)
  {
    forall i, j :: 0 <= i < j < |ids| ==> TextLe(ids[i], ids[j]) && ids[i] != ids[j]
  }

  lemma {:induction false} InsertTextKeepsIncreasing(x: string, sorted: seq<string>)
    requires Increasing(sorted)
    ensures Increasing(InsertText(x, sorted))
  {
    if sorted != [] && x != sorted[0] {
      TextLeTotal(x, sorted[0]);
      if TextLe(x, sorted[0]) {
        forall j | 0 <= j < |sorted| ensures TextLe(x, sorted[j]) && x != sorted[j] {
          if j > 0 { TextLeTransitive(x, sorted[0], sorted[j]); }
          if x == sorted[j] { TextLeAntisymmetric(x, sorted[0]); }
        }
      } else {
        InsertTextKeepsIncreasing(x, sorted[1..]);
        forall y | y in InsertText(x, sorted[1..]) ensures TextLe(sorted[0], y) && y != sorted[0] {
          InsertTextMembers(x, sorted[1..], y);
          if y in sorted[1..] { var j :| 1 <= j < |sorted| && sorted[j] == y; }
        }
      }
    }
  }

  /** Sorting and deduplicating leaves the identifiers in increasing order, each once. */
  lemma {:induction false} SortedUniqueIncreases(ids: seq<string>)
    ensures Increasing(SortedUnique(ids))
  {
    if ids != [] {
      SortedUniqueIncreases(ids[1..]);
      InsertTextKeepsIncreasing(ids[0], SortedUnique(ids[1..]));
    }
  }

  function Nodes(ctx: ReleaseContext): seq<WorkflowNode>
  {
    if ctx.stage2.Some? then ctx.stage2.value else []
  }

  predicate IsHighRiskMode(ctx: ReleaseContext, id: string)
  {
    exists m :: m in Modes(ctx) && m.id == id && (m.severity == Critical || (m.severity == High && !ctx.risk.lowTier))
  }

  predicate IsRequiredNode(ctx: ReleaseContext, n: WorkflowNode)
  {
    exists id :: id in n.failureModes && IsHighRiskMode(ctx, id)
  }

  function NodeIds(nodes: seq<WorkflowNode>): seq<string>
  {
    seq(|nodes|, i requires 0 <= i < |nodes| => nodes[i].nodeId)
  }

  function RequiredNodeIds(ctx: ReleaseContext): seq<string>
  {
    SortedUnique(NodeIds(Filter(Nodes(ctx), n => IsRequiredNode(ctx, n))))
  }

  function RequiredCases(ctx: ReleaseContext): seq<EvalCase>
  {
    var nodes := RequiredNodeIds(ctx);
    SortCases(Filter(ctx.cases, (c: EvalCase) => c.stageId == 3 && c.targetNodeId.Some? && c.targetNodeId.value in nodes))
  }

  function MissingNodeIds(ctx: ReleaseContext): seq<string>
  {
    var cases := RequiredCases(ctx);
    Filter(RequiredNodeIds(ctx), id => !exists c :: c in cases && c.targetNodeId == Some(id))
  }

  function EvalIds(cases: seq<EvalCase>): seq<string>
  {
    seq(|cases|, i requires 0 <= i < |cases| => cases[i].evalId)
  }

  // ----- one run ------------------------------------------------------------------

  datatype Reason =
    | WrongRunMode | WrongExecutionKind | WrongOutcome | NotCompleted | NotPassed | OutputMissing
    | HumanReviewMissing | HumanReviewBasisMissing | StaleVersion | CaseMissing | StaleCase
    | DeploymentMissing | EndpointMismatch | DeploymentVersionMismatch

  function CalibrationsOf(calibrations: seq<HumanCalibration>, runId: string): seq<HumanCalibration>
  {
    Filter(calibrations, (c: HumanCalibration) => c.runId == runId)
  }

  function LatestCalibration(calibrations: seq<HumanCalibration>, runId: string): Option<HumanCalibration>
  {
    var matches := CalibrationsOf(calibrations, runId);
    if matches == [] then None else Some(Newest(matches, (c: HumanCalibration) => c.createdAt))
  }

  predicate DeploymentDeclared(ctx: ReleaseContext)
  {
    ctx.deployment.Some? && ctx.deployment.value.endpoint != "" && ctx.deployment.value.version != ""
  }

  function When(condition: bool, r: Reason): seq<Reason>
  {
    if condition then [r] else []
  }

  function ReviewReasons(run: EvalRun, latest: Option<HumanCalibration>): seq<Reason>
  {
    When(IsBlank(run.actualOutput), OutputMissing) +
    (if run.judgeMode != HumanJudge || latest.None? || latest.value.verdict != Passed then [HumanReviewMissing]
     else When(IsBlank(latest.value.comment) || IsBlank(latest.value.reviewer), HumanReviewBasisMissing))
  }

  function ExecutionReasons(run: EvalRun): seq<Reason>
  {
    When(run.mode != TargetHttpMode, WrongRunMode) +
    When(run.kind != RealTargetExecution, WrongExecutionKind) +
    When(run.outcome != Success, WrongOutcome) +
    When(run.status != Completed, NotCompleted)
  }

  function VerdictReasons(ctx: ReleaseContext, run: EvalRun): seq<Reason>
  {
    if run.verdict != Passed then [NotPassed]
    else if run.mode == TargetHttpMode then ReviewReasons(run, LatestCalibration(ctx.calibrations, run.runId))
    else []
  }

  function ContentReasons(run: EvalRun, c: Option<EvalCase>, digest: VersionDigest): seq<Reason>
  {
    When(run.versionDigest != digest, StaleVersion) +
    (if c.None? then [CaseMissing] else When(run.caseDigest != CaseDigestOf(c.value), StaleCase))
  }

  function DeploymentReasons(ctx: ReleaseContext, run: EvalRun): seq<Reason>
  {
    if !DeploymentDeclared(ctx) then [DeploymentMissing]
    else When(run.endpoint != ctx.deployment.value.endpoint, EndpointMismatch) +
         When(run.deploymentVersion != ctx.deployment.value.version, DeploymentVersionMismatch)
  }

  function BindingReasons(ctx: ReleaseContext, run: EvalRun, c: Option<EvalCase>, digest: VersionDigest): seq<Reason>
  {
    ContentReasons(run, c, digest) + DeploymentReasons(ctx, run)
  }

  function RunReasons(ctx: ReleaseContext, run: EvalRun, c: Option<EvalCase>, digest: VersionDigest): seq<Reason>
  {
    ExecutionReasons(run) + VerdictReasons(ctx, run) + BindingReasons(ctx, run, c, digest)
  }

  /** What an empty list of reasons certifies about a run. */
  ghost predicate IsReleaseEvidence(ctx: ReleaseContext, run: EvalRun, c: Option<EvalCase>, digest: VersionDigest)
  {
    && run.mode == TargetHttpMode && run.kind == RealTargetExecution && run.outcome == Success && run.status == Completed
    && run.verdict == Passed && run.judgeMode == HumanJudge && !IsBlank(run.actualOutput)
    && (exists h :: LatestCalibration(ctx.calibrations, run.runId) == Some(h) && h.verdict == Passed &&
          !IsBlank(h.comment) && !IsBlank(h.reviewer))
    && run.versionDigest == digest
    && c.Some? && run.caseDigest == CaseDigestOf(c.value)
    && DeploymentDeclared(ctx) && Deployment(run.endpoint, run.deploymentVersion) == ctx.deployment.value
  }

  lemma NoReasonIffEvidence(ctx: ReleaseContext, run: EvalRun, c: Option<EvalCase>, digest: VersionDigest)
    ensures RunReasons(ctx, run, c, digest) == [] <==> IsReleaseEvidence(ctx, run, c, digest)
  {
    assert RunReasons(ctx, run, c, digest) == [] <==>
      |ExecutionReasons(run)| == 0 && |VerdictReasons(ctx, run)| == 0 && |BindingReasons(ctx, run, c, digest)| == 0;
    assert run.verdict == Passed && run.mode == TargetHttpMode ==>
      (|VerdictReasons(ctx, run)| == 0 <==>
       run.judgeMode == HumanJudge && !IsBlank(run.actualOutput) &&
       exists h :: LatestCalibration(ctx.calibrations, run.runId) == Some(h) && h.verdict == Passed &&
         !IsBlank(h.comment) && !IsBlank(h.reviewer));
  }

  method CollectExecutionReasons(run: EvalRun) returns (reasons: seq<Reason>)
    ensures reasons == ExecutionReasons(run)
  {
    reasons := [];
    if run.mode != TargetHttpMode { reasons := reasons + [WrongRunMode]; }
    if run.kind != RealTargetExecution { reasons := reasons + [WrongExecutionKind]; }
    if run.outcome != Success { reasons := reasons + [WrongOutcome]; }
    if run.status != Completed { reasons := reasons + [NotCompleted]; }
  }

  method CollectVerdictReasons(ctx: ReleaseContext, run: EvalRun) returns (reasons: seq<Reason>)
    ensures reasons == VerdictReasons(ctx, run)
  {
    if run.verdict != Passed { return [NotPassed]; }
    if run.mode != TargetHttpMode { return []; }
    var latest := LatestCalibration(ctx.calibrations, run.runId);
    reasons := CollectReviewReasons(run, latest);
  }

  method CollectReviewReasons(run: EvalRun, latest: Option<HumanCalibration>) returns (reasons: seq<Reason>)
    ensures reasons == ReviewReasons(run, latest)
  {
    reasons := [];
    if IsBlank(run.actualOutput) { reasons := reasons + [OutputMissing]; }
    if run.judgeMode != HumanJudge || latest.None? || latest.value.verdict != Passed {
      reasons := reasons + [HumanReviewMissing];
    } else if IsBlank(latest.value.comment) || IsBlank(latest.value.reviewer) {
      reasons := reasons + [HumanReviewBasisMissing];
    }
  }

  method CollectContentReasons(run: EvalRun, c: Option<EvalCase>, digest: VersionDigest) returns (reasons: seq<Reason>)
    ensures reasons == ContentReasons(run, c, digest)
  {
    reasons := [];
    if run.versionDigest != digest { reasons := reasons + [StaleVersion]; }
    if c.None? {
      reasons := reasons + [CaseMissing];
    } else if run.caseDigest != CaseDigestOf(c.value) {
      reasons := reasons + [StaleCase];
    }
  }

  method CollectDeploymentReasons(ctx: ReleaseContext, run: EvalRun) returns (reasons: seq<Reason>)
    ensures reasons == DeploymentReasons(ctx, run)
  {
    if !DeploymentDeclared(ctx) { return [DeploymentMissing]; }
    reasons := [];
    if run.endpoint != ctx.deployment.value.endpoint { reasons := reasons + [EndpointMismatch]; }
    if run.deploymentVersion != ctx.deployment.value.version { reasons := reasons + [DeploymentVersionMismatch]; }
  }

  /** The reasons in the order the service appends them; none exactly for release evidence. */
  method ReleaseRunReasons(ctx: ReleaseContext, run: EvalRun, c: Option<EvalCase>, digest: VersionDigest)
    returns (reasons: seq<Reason>)
    ensures reasons == RunReasons(ctx, run, c, digest)
    ensures reasons == [] <==> IsReleaseEvidence(ctx, run, c, digest)
  {
    reasons := CollectExecutionReasons(run);
    var verdict := CollectVerdictReasons(ctx, run);
    var content := CollectContentReasons(run, c, digest);
    var deployment := CollectDeploymentReasons(ctx, run);
    reasons := reasons + verdict + (content + deployment);
    NoReasonIffEvidence(ctx, run, c, digest);
  }

  // ----- experiments in order --------------------------------------------------------

  function FinishedAt(e: EvalExperiment): int
  {
    if e.completedAt.Some? then e.completedAt.value else e.createdAt
  }

  predicate NotAfter(a: EvalExperiment, b: EvalExperiment)
  {
    FinishedAt(a) < FinishedAt(b) || (FinishedAt(a) == FinishedAt(b) && TextLe(a.id, b.id))
  }

  lemma NotAfterIsTotalOrder(a: EvalExperiment, b: EvalExperiment, c: EvalExperiment)
    ensures NotAfter(a, b) || NotAfter(b, a)
    ensures NotAfter(a, b) && NotAfter(b, c) ==> NotAfter(a, c)
  {
    TextLeTotal(a.id, b.id);
    if TextLe(a.id, b.id) && TextLe(b.id, c.id) { TextLeTransitive(a.id, b.id, c.id); }
  }

  function InsertNewest(e: EvalExperiment, sorted: seq<EvalExperiment>): seq<EvalExperiment>
  {
    if sorted == [] || NotAfter(sorted[0], e) then [e] + sorted
    else [sorted[0]] + InsertNewest(e, sorted[1..])
  }

  /** Newest first. */
  function SortNewest(es: seq<EvalExperiment>): seq<EvalExperiment>
  {
    if es == [] then [] else InsertNewest(es[0], SortNewest(es[1..]))
  }

  ghost predicate NewestFirst(es: seq<EvalExperiment>)
  {
    forall i, j :: 0 <= i < j < |es| ==> NotAfter(es[j], es[i])
  }

  lemma {:induction false} InsertNewestIsSorted(e: EvalExperiment, sorted: seq<EvalExperiment>)
    requires NewestFirst(sorted)
    ensures NewestFirst(InsertNewest(e, sorted))
    ensures forall x :: x in InsertNewest(e, sorted) <==> x == e || x in sorted
  {
    if sorted != [] {
      assert sorted == [sorted[0]] + sorted[1..];
      if NotAfter(sorted[0], e) {
        forall x | x in sorted ensures NotAfter(x, e) { NotAfterIsTotalOrder(x, sorted[0], e); }
      } else {
        InsertNewestIsSorted(e, sorted[1..]);
        NotAfterIsTotalOrder(e, sorted[0], e);
        forall x | x in InsertNewest(e, sorted[1..]) ensures NotAfter(x, sorted[0]) {}
      }
    }
  }

  lemma {:induction false} SortNewestIsSorted(es: seq<EvalExperiment>)
    ensures NewestFirst(SortNewest(es))
    ensures forall x :: x in SortNewest(es) <==> x in es
  {
    if es != [] {
      SortNewestIsSorted(es[1..]);
      InsertNewestIsSorted(es[0], SortNewest(es[1..]));
      assert es == [es[0]] + es[1..];
    }
  }

  // ----- one experiment as a batch ------------------------------------------------------

  predicate IsCandidate(e: EvalExperiment) { e.status == ExpCompleted && e.mode == TargetHttpMode }

  function RelevantRuns(ctx: ReleaseContext, e: EvalExperiment, required: seq<string>): seq<EvalRun>
  {
    Filter(Filter(ctx.runs, (r: EvalRun) => r.runId in e.runIds), (r: EvalRun) => required == [] || r.evalId in required)
  }

  /** A later case with the same id replaces an earlier one. */
  function CaseById(cases: seq<EvalCase>, evalId: string): Option<EvalCase>
  {
    if cases == [] then None
    else if cases[|cases| - 1].evalId == evalId then Some(cases[|cases| - 1])
    else CaseById(cases[..|cases| - 1], evalId)
  }

  function ReasonsOf(ctx: ReleaseContext, r: EvalRun, digest: VersionDigest): seq<Reason>
  {
    RunReasons(ctx, r, CaseById(ctx.cases, r.evalId), digest)
  }

  function InvalidRuns(ctx: ReleaseContext, runs: seq<EvalRun>, digest: VersionDigest): seq<EvalRun>
  {
    Filter(runs, (r: EvalRun) => ReasonsOf(ctx, r, digest) != [])
  }

  function ValidRuns(ctx: ReleaseContext, runs: seq<EvalRun>, digest: VersionDigest): seq<EvalRun>
  {
    Filter(runs, (r: EvalRun) => ReasonsOf(ctx, r, digest) == [])
  }

  function MissingCases(runs: seq<EvalRun>, required: seq<string>): seq<string>
  {
    Filter(required, id => !exists r :: r in runs && r.evalId == id)
  }

  predicate Qualifies(ctx: ReleaseContext, e: EvalExperiment, required: seq<string>, digest: VersionDigest)
  {
    var runs := RelevantRuns(ctx, e, required);
    runs != [] && MissingCases(runs, required) == [] && InvalidRuns(ctx, runs, digest) == []
  }

  ghost predicate IsRelevant(ctx: ReleaseContext, e: EvalExperiment, required: seq<string>, r: EvalRun)
  {
    r in ctx.runs && r.runId in e.runIds && (required == [] || r.evalId in required)
  }

  /** In the terms of the requirement: all relevant runs are evidence and every required case has one. */
  ghost predicate IsCompleteBatch(ctx: ReleaseContext, e: EvalExperiment, required: seq<string>, digest: VersionDigest)
  {
    && (exists r :: IsRelevant(ctx, e, required, r))
    && (forall r :: IsRelevant(ctx, e, required, r) ==> IsReleaseEvidence(ctx, r, CaseById(ctx.cases, r.evalId), digest))
    && (forall id :: id in required ==> exists r :: IsRelevant(ctx, e, required, r) && r.evalId == id)
  }

  lemma RelevantRunsAre(ctx: ReleaseContext, e: EvalExperiment, required: seq<string>, r: EvalRun)
    ensures r in RelevantRuns(ctx, e, required) <==> IsRelevant(ctx, e, required, r)
  {
    var listed := Filter(ctx.runs, (x: EvalRun) => x.runId in e.runIds);
    FilterMembers(ctx.runs, (x: EvalRun) => x.runId in e.runIds);
    FilterMembers(listed, (x: EvalRun) => required == [] || x.evalId in required);
  }

  lemma NoInvalidRun(ctx: ReleaseContext, runs: seq<EvalRun>, digest: VersionDigest)
    ensures InvalidRuns(ctx, runs, digest) == [] <==>
      forall r :: r in runs ==> IsReleaseEvidence(ctx, r, CaseById(ctx.cases, r.evalId), digest)
  {
    EmptyIffNone(runs, (r: EvalRun) => ReasonsOf(ctx, r, digest) != []);
    forall r: EvalRun
      ensures ReasonsOf(ctx, r, digest) == [] <==> IsReleaseEvidence(ctx, r, CaseById(ctx.cases, r.evalId), digest)
    {
      NoReasonIffEvidence(ctx, r, CaseById(ctx.cases, r.evalId), digest);
    }
  }

  lemma QualifiesIffCompleteBatch(ctx: ReleaseContext, e: EvalExperiment, required: seq<string>, digest: VersionDigest)
    ensures Qualifies(ctx, e, required, digest) <==> IsCompleteBatch(ctx, e, required, digest)
  {
    var runs := RelevantRuns(ctx, e, required);
    forall r: EvalRun ensures r in runs <==> IsRelevant(ctx, e, required, r) { RelevantRunsAre(ctx, e, required, r); }
    NoInvalidRun(ctx, runs, digest);
    EmptyIffNone(required, id => !exists r :: r in runs && r.evalId == id);
    if runs != [] { assert runs[0] in runs; }
  }

  // ----- selecting the batch ---------------------------------------------------------------

  datatype BlockerCode = ReleaseBatchCode | RealTargetTest | RequiredTestCase | TargetDeploymentCode

  datatype EvidenceBlocker = EvidenceBlocker(code: BlockerCode, sourceType: string, sourceId: string, reasons: seq<Reason>)

  datatype Batch = Batch(experimentId: string, runIds: seq<string>, evalIds: seq<string>)

  datatype Selection = Selection(batch: Option<Batch>, blockers: seq<EvidenceBlocker>, validRuns: seq<EvalRun>)

  function RunIds(runs: seq<EvalRun>): seq<string>
  {
    seq(|runs|, i requires 0 <= i < |runs| => runs[i].runId)
  }

  function RunEvalIds(runs: seq<EvalRun>): seq<string>
  {
    seq(|runs|, i requires 0 <= i < |runs| => runs[i].evalId)
  }

  function MissingBlocker(ctx: ReleaseContext, id: string): EvidenceBlocker
  {
    var c := CaseById(ctx.cases, id);
    if c.Some? && c.value.targetNodeId.Some? && c.value.targetNodeId.value != ""
    then EvidenceBlocker(RealTargetTest, "eval_node", c.value.targetNodeId.value, [])
    else EvidenceBlocker(RealTargetTest, "eval_case", id, [])
  }

  function MissingBlockers(ctx: ReleaseContext, missing: seq<string>): seq<EvidenceBlocker>
  {
    if missing == [] then []
    else MissingBlockers(ctx, missing[..|missing| - 1]) + [MissingBlocker(ctx, missing[|missing| - 1])]
  }

  function RunBlockers(ctx: ReleaseContext, invalid: seq<EvalRun>, digest: VersionDigest): seq<EvidenceBlocker>
  {
    if invalid == [] then []
    else
      var last := invalid[|invalid| - 1];
      RunBlockers(ctx, invalid[..|invalid| - 1], digest) +
      [EvidenceBlocker(RealTargetTest, "eval_run", last.runId, ReasonsOf(ctx, last, digest))]
  }

  function ExperimentBlockers(ctx: ReleaseContext, runs: seq<EvalRun>, required: seq<string>, digest: VersionDigest): seq<EvidenceBlocker>
  {
    MissingBlockers(ctx, MissingCases(runs, required)) + RunBlockers(ctx, InvalidRuns(ctx, runs, digest), digest)
  }

  function BatchOf(e: EvalExperiment, runs: seq<EvalRun>, required: seq<string>): Batch
  {
    Batch(e.id, RunIds(runs), if required == [] then SortedUnique(RunEvalIds(runs)) else required)
  }

  /** What one pass over an experiment's runs finds out. */
  datatype Judged = Judged(
    experiment: EvalExperiment, runs: seq<EvalRun>, qualifies: bool, hasInvalid: bool,
    blockers: seq<EvidenceBlocker>, valid: seq<EvalRun>)

  function Judge(ctx: ReleaseContext, e: EvalExperiment, required: seq<string>, digest: VersionDigest): Judged
  {
    var runs := RelevantRuns(ctx, e, required);
    Judged(e, runs, Qualifies(ctx, e, required, digest), InvalidRuns(ctx, runs, digest) != [],
           ExperimentBlockers(ctx, runs, required, digest), ValidRuns(ctx, runs, digest))
  }

  /** What one rejected experiment leaves behind as the best explanation so far. */
  function NextBest(j: Judged, required: seq<string>, best: seq<EvidenceBlocker>): seq<EvidenceBlocker>
  {
    if required == [] then (if j.runs != [] && j.hasInvalid then j.blockers else best)
    else if j.blockers != [] && best == [] then j.blockers
    else best
  }

  function NothingSelected(required: seq<string>, best: seq<EvidenceBlocker>, valid: seq<EvalRun>): Selection
  {
    var default := EvidenceBlocker(RealTargetTest, if required == [] then "eval_run" else "eval_experiment", "", []);
    Selection(None, if best == [] then [default] else best, if required == [] then [] else valid)
  }

  /** The candidates from position `k` on, with the best explanation and the valid runs gathered before. */
  function SelectFrom(js: seq<Judged>, k: nat, required: seq<string>, best: seq<EvidenceBlocker>, valid: seq<EvalRun>): Selection
    requires k <= |js|
    decreases |js| - k
  {
    if k == |js| then NothingSelected(required, best, valid)
    else if js[k].qualifies then
      Selection(Some(BatchOf(js[k].experiment, js[k].runs, required)), [], js[k].runs)
    else
      SelectFrom(js, k + 1, required, NextBest(js[k], required, best),
                 if required == [] then valid else valid + js[k].valid)
  }

  function Candidates(ctx: ReleaseContext): seq<EvalExperiment>
  {
    SortNewest(Filter(ctx.experiments, IsCandidate))
  }

  function JudgeAll(ctx: ReleaseContext, es: seq<EvalExperiment>, required: seq<string>, digest: VersionDigest): seq<Judged>
  {
    seq(|es|, i requires 0 <= i < |es| => Judge(ctx, es[i], required, digest))
  }

  function SelectBatch(ctx: ReleaseContext, required: seq<string>, digest: VersionDigest): Selection
  {
    if Candidates(ctx) == [] then Selection(None, [EvidenceBlocker(ReleaseBatchCode, "eval_experiment", "", [])], [])
    else SelectFrom(JudgeAll(ctx, Candidates(ctx), required, digest), 0, required, [], [])
  }

  /** The selection stops at the first candidate that qualifies, or past the last with an explanation. */
  lemma {:induction false} SelectFromStops(js: seq<Judged>, k: nat, required: seq<string>,
                                           best: seq<EvidenceBlocker>, valid: seq<EvalRun>) returns (i: nat)
    requires k <= |js|
    ensures k <= i <= |js|
    ensures forall j :: k <= j < i ==> !js[j].qualifies
    ensures var s := SelectFrom(js, k, required, best, valid);
      if i < |js| then
        js[i].qualifies && s == Selection(Some(BatchOf(js[i].experiment, js[i].runs, required)), [], js[i].runs)
      else s.batch == None && s.blockers != []
    decreases |js| - k
  {
    if k == |js| || js[k].qualifies {
      i := k;
    } else {
      i := SelectFromStops(js, k + 1, required, NextBest(js[k], required, best),
                           if required == [] then valid else valid + js[k].valid);
    }
  }

  lemma CandidatesAre(ctx: ReleaseContext)
    ensures NewestFirst(Candidates(ctx))
    ensures forall e :: e in Candidates(ctx) <==> e in ctx.experiments && IsCandidate(e)
  {
    FilterMembers(ctx.experiments, IsCandidate);
    SortNewestIsSorted(Filter(ctx.experiments, IsCandidate));
  }

  ghost predicate IsReleaseBatch(ctx: ReleaseContext, e: EvalExperiment, required: seq<string>, digest: VersionDigest)
  {
    e in ctx.experiments && IsCandidate(e) && IsCompleteBatch(ctx, e, required, digest)
  }

  /**
    A batch is selected exactly when some completed real-target experiment is a complete batch; it is then the
    newest such experiment, its runs are that experiment's relevant runs, and without a batch there is a blocker.
   */
  lemma SelectionIsSoundCompleteAndLatest(ctx: ReleaseContext, required: seq<string>, digest: VersionDigest)
    returns (chosen: Option<EvalExperiment>)
    ensures SelectBatch(ctx, required, digest).batch.Some? <==> chosen.Some?
    ensures chosen.None? ==> forall e :: !IsReleaseBatch(ctx, e, required, digest)
    ensures chosen.None? ==> SelectBatch(ctx, required, digest).blockers != []
    ensures chosen.Some? ==> IsReleaseBatch(ctx, chosen.value, required, digest)
    ensures chosen.Some? ==> forall e :: IsReleaseBatch(ctx, e, required, digest) ==> NotAfter(e, chosen.value)
    ensures chosen.Some? ==>
      var runs := RelevantRuns(ctx, chosen.value, required);
      SelectBatch(ctx, required, digest) == Selection(Some(BatchOf(chosen.value, runs, required)), [], runs)
  {
    var es := Candidates(ctx);
    CandidatesAre(ctx);
    if es == [] {
      chosen := None;
    } else {
      var js := JudgeAll(ctx, es, required, digest);
      var i := SelectFromStops(js, 0, required, [], []);
      forall j | 0 <= j < |es|
        ensures js[j].qualifies <==> IsCompleteBatch(ctx, es[j], required, digest)
      {
        QualifiesIffCompleteBatch(ctx, es[j], required, digest);
      }
      chosen := if i < |es| then Some(es[i]) else None;
      ChosenIsLatest(ctx, es, required, digest, i);
    }
  }

  lemma ChosenIsLatest(ctx: ReleaseContext, es: seq<EvalExperiment>, required: seq<string>, digest: VersionDigest, i: nat)
    requires NewestFirst(es) && i <= |es|
    requires forall e :: e in es <==> e in ctx.experiments && IsCandidate(e)
    requires forall j :: 0 <= j < i ==> !IsCompleteBatch(ctx, es[j], required, digest)
    ensures i < |es| ==> forall e :: IsReleaseBatch(ctx, e, required, digest) ==> NotAfter(e, es[i])
    ensures i == |es| ==> forall e :: !IsReleaseBatch(ctx, e, required, digest)
  {
    forall e | IsReleaseBatch(ctx, e, required, digest) ensures i < |es| && NotAfter(e, es[i]) {
      assert e in es;
      var j :| 0 <= j < |es| && es[j] == e;
      NotAfterIsTotalOrder(e, es[i], e);
    }
  }

  // ----- the loops of the service -----------------------------------------------------------

  method CollectMissingBlockers(ctx: ReleaseContext, missing: seq<string>) returns (blockers: seq<EvidenceBlocker>)
    ensures blockers == MissingBlockers(ctx, missing)
  {
    blockers := [];
    for i := 0 to |missing|
      invariant blockers == MissingBlockers(ctx, missing[..i])
    {
      assert missing[..i + 1][..i] == missing[..i];
      blockers := blockers + [MissingBlocker(ctx, missing[i])];
    }
    assert missing[..|missing|] == missing;
  }

  lemma JudgeNext(ctx: ReleaseContext, runs: seq<EvalRun>, i: nat, digest: VersionDigest)
    requires i < |runs|
    ensures InvalidRuns(ctx, runs[..i + 1], digest) ==
      InvalidRuns(ctx, runs[..i], digest) + if ReasonsOf(ctx, runs[i], digest) != [] then [runs[i]] else []
    ensures ValidRuns(ctx, runs[..i + 1], digest) ==
      ValidRuns(ctx, runs[..i], digest) + if ReasonsOf(ctx, runs[i], digest) == [] then [runs[i]] else []
  {
    FilterNext(runs, i, (r: EvalRun) => ReasonsOf(ctx, r, digest) != []);
    FilterNext(runs, i, (r: EvalRun) => ReasonsOf(ctx, r, digest) == []);
  }

  lemma RunBlockersGrow(ctx: ReleaseContext, invalid: seq<EvalRun>, r: EvalRun, digest: VersionDigest)
    ensures RunBlockers(ctx, invalid + [r], digest) ==
      RunBlockers(ctx, invalid, digest) + [EvidenceBlocker(RealTargetTest, "eval_run", r.runId, ReasonsOf(ctx, r, digest))]
  {
    assert (invalid + [r])[..|invalid|] == invalid;
  }

  method JudgeRuns(ctx: ReleaseContext, runs: seq<EvalRun>, digest: VersionDigest)
    returns (invalid: seq<EvalRun>, valid: seq<EvalRun>, blockers: seq<EvidenceBlocker>)
    ensures invalid == InvalidRuns(ctx, runs, digest) && valid == ValidRuns(ctx, runs, digest)
    ensures blockers == RunBlockers(ctx, invalid, digest)
  {
    invalid, valid, blockers := [], [], [];
    for i := 0 to |runs|
      invariant invalid == InvalidRuns(ctx, runs[..i], digest) && valid == ValidRuns(ctx, runs[..i], digest)
      invariant blockers == RunBlockers(ctx, invalid, digest)
    {
      JudgeNext(ctx, runs, i, digest);
      var reasons := ReleaseRunReasons(ctx, runs[i], CaseById(ctx.cases, runs[i].evalId), digest);
      if reasons == [] {
        valid := valid + [runs[i]];
      } else {
        RunBlockersGrow(ctx, invalid, runs[i], digest);
        invalid := invalid + [runs[i]];
        blockers := blockers + [EvidenceBlocker(RealTargetTest, "eval_run", runs[i].runId, reasons)];
      }
    }
    assert runs[..|runs|] == runs;
  }

  method JudgeExperiment(ctx: ReleaseContext, e: EvalExperiment, required: seq<string>, digest: VersionDigest)
    returns (j: Judged)
    ensures j == Judge(ctx, e, required, digest)
  {
    var runs := RelevantRuns(ctx, e, required);
    var missing := MissingCases(runs, required);
    var blockers := CollectMissingBlockers(ctx, missing);
    var invalid, valid, runBlockers := JudgeRuns(ctx, runs, digest);
    j := Judged(e, runs, runs != [] && missing == [] && invalid == [], invalid != [], blockers + runBlockers, valid);
  }

  method SelectReleaseBatch(ctx: ReleaseContext, required: seq<string>, digest: VersionDigest) returns (s: Selection)
    ensures s == SelectBatch(ctx, required, digest)
  {
    var es := Candidates(ctx);
    if es == [] { return Selection(None, [EvidenceBlocker(ReleaseBatchCode, "eval_experiment", "", [])], []); }
    s := SelectAmong(ctx, es, required, digest, JudgeAll(ctx, es, required, digest));
  }

  ghost predicate AreJudged(ctx: ReleaseContext, es: seq<EvalExperiment>, required: seq<string>, digest: VersionDigest,
                            js: seq<Judged>)
  {
    |js| == |es| &&
    forall k {:trigger Judge(ctx, es[k], required, digest)} :: 0 <= k < |es| ==> js[k] == Judge(ctx, es[k], required, digest)
  }

  method JudgeCandidate(ctx: ReleaseContext, es: seq<EvalExperiment>, k: nat, required: seq<string>, digest: VersionDigest,
                        ghost js: seq<Judged>) returns (j: Judged)
    requires k < |es| && AreJudged(ctx, es, required, digest, js)
    ensures j == js[k] && j.experiment == es[k]
  {
    j := JudgeExperiment(ctx, es[k], required, digest);
  }

  method SelectAmong(ctx: ReleaseContext, es: seq<EvalExperiment>, required: seq<string>, digest: VersionDigest,
                     ghost js: seq<Judged>) returns (s: Selection)
    requires AreJudged(ctx, es, required, digest, js)
    ensures s == SelectFrom(js, 0, required, [], [])
  {
    var best, valid := [], [];
    for k := 0 to |es|
      invariant SelectFrom(js, k, required, best, valid) == SelectFrom(js, 0, required, [], [])
    {
      var j := JudgeCandidate(ctx, es, k, required, digest, js);
      if j.qualifies { return Selection(Some(BatchOf(es[k], j.runs, required)), [], j.runs); }
      best := NextBest(j, required, best);
      valid := if required == [] then valid else valid + j.valid;
    }
    s := NothingSelected(required, best, valid);
  }

  // ----- the evidence of a release ------------------------------------------------------------

  datatype EvidenceBundle = EvidenceBundle(
    requiredCases: seq<EvalCase>, missingNodes: seq<string>, batch: Option<Batch>, validRuns: seq<EvalRun>,
    blockers: seq<EvidenceBlocker>)

  function BuildReleaseEvidence(ctx: ReleaseContext, digest: VersionDigest): EvidenceBundle
  {
    var cases, missing := RequiredCases(ctx), MissingNodeIds(ctx);
    var s := SelectBatch(ctx, SortedUnique(EvalIds(cases)), digest);
    var gaps := seq(|missing|, i requires 0 <= i < |missing| => EvidenceBlocker(RequiredTestCase, "eval_node", missing[i], []));
    var undeclared := if DeploymentDeclared(ctx) then []
                      else [EvidenceBlocker(TargetDeploymentCode, "target_deployment", "", [])];
    EvidenceBundle(cases, missing, s.batch, s.validRuns, undeclared + gaps + s.blockers)
  }

  datatype RunEntry = RunEntry(
    runId: string, evalId: string, status: RunStatus, outcome: ExecutionOutcome, verdict: Verdict, judgeMode: JudgeMode,
    judgeReason: Rationale, actualOutput: string, versionDigest: VersionDigest, caseDigest: CaseDigest,
    endpoint: string, deploymentVersion: string, completedAt: Option<int>)

  datatype ActionEntry = ActionEntry(id: string, status: ActionStatus, stageId: int, version: int)

  /** What an approval binds of a treatment: neither who updated it last nor when. */
  datatype BoundTreatment = BoundTreatment(
    id: string, owner: string, plan: string, status: TreatmentStatus, reviewedBy: string, reviewedAt: Option<int>,
    reviewNote: string, digest: VersionDigest)

  datatype TreatmentEntry = TreatmentEntry(sourceType: SourceType, sourceId: string, treatment: Option<BoundTreatment>)

  /** The evidence that must not change for an approval to stay valid; lists sorted by id are multisets. */
  datatype Snapshot = NoSnapshot | Snapshot(
    digest: VersionDigest,
    requiredEvalIds: multiset<string>,
    batchRunIds: set<string>,
    runs: multiset<RunEntry>,
    calibrations: multiset<HumanCalibration>,
    treatments: seq<TreatmentEntry>,
    findings: multiset<SafetyFinding>,
    actions: multiset<ActionEntry>)

  function RunEntryOf(r: EvalRun): RunEntry
  {
    RunEntry(r.runId, r.evalId, r.status, r.outcome, r.verdict, r.judgeMode, r.judgeReason, r.actualOutput,
             r.versionDigest, r.caseDigest, r.endpoint, r.deploymentVersion, r.completedAt)
  }

  function ActionEntryOf(a: HumanAction): ActionEntry { ActionEntry(a.id, a.status, a.stageId, a.version) }

  function Bound(t: RiskTreatment): BoundTreatment
  {
    BoundTreatment(t.id, t.owner, t.plan, t.status, t.reviewedBy, t.reviewedAt, t.reviewNote, t.digest)
  }

  function TreatmentEntryOf(ts: seq<RiskTreatment>, r: Requirement): TreatmentEntry
  {
    var t := Latest(ts, r.sourceType, r.sourceId);
    TreatmentEntry(r.sourceType, r.sourceId, if t.Some? then Some(Bound(t.value)) else None)
  }

  function TreatmentEntries(ctx: ReleaseContext): seq<TreatmentEntry>
  {
    var reqs := Requirements(ctx);
    seq(|reqs|, i requires 0 <= i < |reqs| => TreatmentEntryOf(ctx.treatments, reqs[i]))
  }

  /** A resubmission leaves what an approval bound exactly if it repeats content, note and version, whoever submits it. */
  lemma ResubmissionKeepsBoundIffIdentical(t: RiskTreatment, s: Submission, digest: VersionDigest, now: int)
    requires s.status.Some?
    ensures Bound(Updated(t, s, digest, now)) == Bound(t) <==>
      SameContent(t, s) && t.digest == digest && t.reviewNote == s.note
  {
  }

  function SnapshotOf(ctx: ReleaseContext, runIds: seq<string>, evalIds: seq<string>, digest: VersionDigest): Snapshot
  {
    Snapshot(
      digest,
      multiset(evalIds),
      set id | id in runIds,
      multiset(Map(Filter(ctx.runs, (r: EvalRun) => r.runId in runIds), RunEntryOf)),
      multiset(Filter(ctx.calibrations, (c: HumanCalibration) => c.runId in runIds)),
      TreatmentEntries(ctx),
      multiset(Filter(ctx.findings, (f: SafetyFinding) => IsSevere(f.severity))),
      multiset(Map(Filter(ctx.actions, (a: HumanAction) => a.blocking), ActionEntryOf)))
  }
}
