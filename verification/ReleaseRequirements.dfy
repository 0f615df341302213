/**
  What a release requires, said directly of the session: of its state, its actions, findings, evidence, treatments,
  test cases, runs and calibrations. The computed readiness is proved to say exactly this.
 */
module ReleaseRequirements {
  import opened Prelude
  import opened Models
  import opened Lineage
  import opened ReleaseModels
  import opened EvaluationVersion
  import opened RiskTreatments
  import opened ReleaseEvidence
  import opened Approval

  /** The element a list shows for a key: the last listed of the newest that have it. */
  ghost predicate IsNewestAt<T(!new)>(items: seq<T>, i: nat, has: T -> bool, time: T -> int)
  {
    && i < |items| && has(items[i])
    && forall j | 0 <= j < |items| && has(items[j]) :: time(items[j]) < time(items[i]) || (time(items[j]) == time(items[i]) && j <= i)
  }

  /** The last listed element that has a key. */
  ghost predicate IsLastAt<T(!new)>(items: seq<T>, i: nat, has: T -> bool)
  {
    i < |items| && has(items[i]) && forall j | i < j < |items| :: !has(items[j])
  }

  // ----- the requirements ---------------------------------------------------------------

  /** A high-risk node: it addresses a critical failure mode, or a high one unless the tier is the lowest. */
  ghost predicate IsHighRiskNode(ctx: ReleaseContext, id: string)
  {
    ctx.stage1.Some? && ctx.stage2.Some? &&
    exists n, m :: n in ctx.stage2.value && n.nodeId == id && m in ctx.stage1.value && m.id in n.failureModes &&
      (m.severity == Critical || (m.severity == High && !ctx.risk.lowTier))
  }

  /** A test case that a release must have passed: one of stage 3 for a high-risk node. */
  ghost predicate MustPass(ctx: ReleaseContext, c: EvalCase)
  {
    c in ctx.cases && c.stageId == 3 && c.targetNodeId.Some? && IsHighRiskNode(ctx, c.targetNodeId.value)
  }

  /** Its newest calibration is a pass with a written basis by a named reviewer. */
  ghost predicate IsPassedByHuman(ctx: ReleaseContext, runId: string)
  {
    exists i: nat ::
      && IsNewestAt(ctx.calibrations, i, (c: HumanCalibration) => c.runId == runId, (c: HumanCalibration) => c.createdAt)
      && ctx.calibrations[i].verdict == Passed
      && !IsBlank(ctx.calibrations[i].comment) && !IsBlank(ctx.calibrations[i].reviewer)
  }

  function OfCase(evalId: string): EvalCase -> bool { (c: EvalCase) => c.evalId == evalId }

  /** The last listed case of the identifier is the definition the run was made with. */
  ghost predicate IsOfCurrentCase(ctx: ReleaseContext, r: EvalRun)
  {
    exists i: nat :: IsLastAt(ctx.cases, i, OfCase(r.evalId)) && r.caseDigest == CaseDigestOf(ctx.cases[i])
  }

  /** A completed, successful run against the declared deployment at the current version, passed by a human. */
  ghost predicate Counts(ctx: ReleaseContext, r: EvalRun)
  {
    && r.mode == TargetHttpMode && r.kind == RealTargetExecution && r.outcome == Success && r.status == Completed
    && r.verdict == Passed && r.judgeMode == HumanJudge && !IsBlank(r.actualOutput) && IsPassedByHuman(ctx, r.runId)
    && r.versionDigest == CurrentDigest(ctx) && IsOfCurrentCase(ctx, r)
    && ctx.deployment.Some? && r.endpoint == ctx.deployment.value.endpoint != ""
    && r.deploymentVersion == ctx.deployment.value.version != ""
  }

  /** A run of the experiment that matters: of a case that must pass, or any if there is none. */
  ghost predicate Matters(ctx: ReleaseContext, e: EvalExperiment, r: EvalRun)
  {
    && r in ctx.runs && r.runId in e.runIds
    && ((forall c :: !MustPass(ctx, c)) || exists c :: MustPass(ctx, c) && c.evalId == r.evalId)
  }

  /** One completed experiment on the real target whose runs all count and cover every case that must pass. */
  ghost predicate IsPassedBatch(ctx: ReleaseContext, e: EvalExperiment)
  {
    && e in ctx.experiments && e.status == ExpCompleted && e.mode == TargetHttpMode
    && (exists r :: Matters(ctx, e, r))
    && (forall r :: Matters(ctx, e, r) ==> Counts(ctx, r))
    && (forall c :: MustPass(ctx, c) ==> HasRun(ctx, e, c.evalId))
  }

  ghost predicate HasRun(ctx: ReleaseContext, e: EvalExperiment, evalId: string)
  {
    exists r :: Matters(ctx, e, r) && r.evalId == evalId
  }

  /** The newest treatment of the source is filled in, final, reviewed, and of the current version. */
  ghost predicate IsTreated(ctx: ReleaseContext, t: SourceType, id: string)
  {
    exists i: nat ::
      && IsNewestAt(ctx.treatments, i, (x: RiskTreatment) => x.sourceType == t && x.sourceId == id, (x: RiskTreatment) => x.updatedAt)
      && var x := ctx.treatments[i];
         && !IsBlank(x.owner) && !IsBlank(x.plan) && !IsBlank(x.reviewedBy)
         && x.status in {TreatmentCompleted, Accepted} && x.digest == CurrentDigest(ctx)
  }

  /** The last listed evidence of the identifier is verified. */
  ghost predicate IsVerifiedEvidence(ctx: ReleaseContext, id: string)
  {
    exists i: nat :: IsLastAt(ctx.evidence, i, (x: EvidenceSource) => x.id == id) && ctx.evidence[i].verified
  }

  ghost predicate IsEvaluated(ctx: ReleaseContext)
  {
    && ctx.state == Complete && ctx.stage1.Some? && ctx.stage2.Some? && ctx.stage3.Some? && ctx.stage4.Some?
    && ctx.staleKeys == [] && ctx.parserErrors == []
  }

  ghost predicate NothingIsOpen(ctx: ReleaseContext)
  {
    && (forall a :: a in ctx.actions ==> !(a.status == Pending && a.blocking && a.version == VersionById(ctx.versions, a.stageId)))
    && (forall f :: f in ctx.findings ==> !(f.status == Open && f.severity in {High, Critical}))
  }

  /** Every severe failure mode rests on evidence, all of it verified. */
  ghost predicate EvidenceIsVerified(ctx: ReleaseContext)
  {
    ctx.stage1.Some? ==>
      forall m :: m in ctx.stage1.value && m.severity in {High, Critical} ==>
        m.evidenceIds != [] && forall id :: id in m.evidenceIds ==> IsVerifiedEvidence(ctx, id)
  }

  ghost predicate RisksAreTreated(ctx: ReleaseContext)
  {
    && (ctx.stage1.Some? ==>
          forall m :: m in ctx.stage1.value && m.severity in {High, Critical} ==> IsTreated(ctx, FailureModeSource, m.id))
    && (forall f :: f in ctx.findings && f.status == Open && f.severity in {High, Critical} ==>
          IsTreated(ctx, SafetyFindingSource, f.id))
  }

  ghost predicate NodesHaveCases(ctx: ReleaseContext)
  {
    forall id :: IsHighRiskNode(ctx, id) ==> exists c :: MustPass(ctx, c) && c.targetNodeId == Some(id)
  }

  /** Everything a release of a business session requires. */
  ghost predicate MeetsAllRequirements(ctx: ReleaseContext)
  {
    && ctx.inputs.classification != PublicDemo && IsEvaluated(ctx) && NothingIsOpen(ctx)
    && EvidenceIsVerified(ctx) && RisksAreTreated(ctx) && NodesHaveCases(ctx)
    && ctx.deployment.Some? && ctx.deployment.value.endpoint != "" && ctx.deployment.value.version != ""
    && exists e :: IsPassedBatch(ctx, e)
  }

  ghost predicate FinishedNoLater(e: EvalExperiment, f: EvalExperiment)
  {
    var at := (x: EvalExperiment) => if x.completedAt.None? then x.createdAt else x.completedAt.value;
    at(e) < at(f) || (at(e) == at(f) && TextLe(e.id, f.id))
  }

  // ----- what the computations find --------------------------------------------------------

  lemma {:induction false} SortedCasesAre(cases: seq<EvalCase>, c: EvalCase)
    ensures c in SortCases(cases) <==> c in cases
  {
    if cases != [] {
      SortedCasesAre(cases[1..], c);
      InsertedCaseMembers(cases[0], SortCases(cases[1..]), c);
      assert cases == [cases[0]] + cases[1..];
    }
  }

  lemma RequiredNodesAre(ctx: ReleaseContext, id: string)
    ensures id in RequiredNodeIds(ctx) <==> IsHighRiskNode(ctx, id)
  {
    var nodes := Filter(Nodes(ctx), n => IsRequiredNode(ctx, n));
    FilterMembers(Nodes(ctx), n => IsRequiredNode(ctx, n));
    SortedUniqueMembers(NodeIds(nodes), id);
    if id in NodeIds(nodes) {
      var i :| 0 <= i < |nodes| && nodes[i].nodeId == id;
      assert nodes[i] in nodes;
    }
    if IsHighRiskNode(ctx, id) {
      var n, m :| n in ctx.stage2.value && n.nodeId == id && m in ctx.stage1.value && m.id in n.failureModes &&
        (m.severity == Critical || (m.severity == High && !ctx.risk.lowTier));
      assert IsHighRiskMode(ctx, m.id) && n in nodes;
      var i :| 0 <= i < |nodes| && nodes[i] == n;
      assert NodeIds(nodes)[i] == id;
    }
  }

  lemma RequiredCasesAre(ctx: ReleaseContext, c: EvalCase)
    ensures c in RequiredCases(ctx) <==> MustPass(ctx, c)
  {
    var nodes := RequiredNodeIds(ctx);
    var keep := (x: EvalCase) => x.stageId == 3 && x.targetNodeId.Some? && x.targetNodeId.value in nodes;
    SortedCasesAre(Filter(ctx.cases, keep), c);
    FilterMembers(ctx.cases, keep);
    if c.targetNodeId.Some? { RequiredNodesAre(ctx, c.targetNodeId.value); }
  }

  function RequiredIds(ctx: ReleaseContext): seq<string> { SortedUnique(EvalIds(RequiredCases(ctx))) }

  lemma RequiredIdsAre(ctx: ReleaseContext, id: string)
    ensures id in RequiredIds(ctx) <==> exists c :: MustPass(ctx, c) && c.evalId == id
  {
    var cases := RequiredCases(ctx);
    SortedUniqueMembers(EvalIds(cases), id);
    forall c: EvalCase ensures c in cases <==> MustPass(ctx, c) { RequiredCasesAre(ctx, c); }
    if id in EvalIds(cases) {
      var i :| 0 <= i < |cases| && cases[i].evalId == id;
      assert cases[i] in cases;
    }
    if c :| MustPass(ctx, c) && c.evalId == id {
      var i :| 0 <= i < |cases| && cases[i] == c;
      assert EvalIds(cases)[i] == id;
    }
  }

  /** One more element at the end that has the key, or has it not. */
  lemma NewestWithMore<T(!new)>(items: seq<T>, n: nat, i: nat, has: T -> bool, time: T -> int)
    requires |items| == n + 1 && IsNewestAt(items[..n], i, has, time)
    ensures IsNewestAt(items, if has(items[n]) && time(items[i]) <= time(items[n]) then n else i, has, time)
  {
    var k := if has(items[n]) && time(items[i]) <= time(items[n]) then n else i;
    assert items[..n][i] == items[i];
    forall j | 0 <= j < |items| && has(items[j])
      ensures time(items[j]) < time(items[k]) || (time(items[j]) == time(items[k]) && j <= k)
    {
      if j < n { assert items[..n][j] == items[j]; }
    }
  }

  lemma NewestKeptWithMore<T(!new)>(items: seq<T>, n: nat, i: nat, has: T -> bool, time: T -> int)
    requires |items| == n + 1 && IsNewestAt(items[..n], i, has, time)
    requires Filter(items[..n], has) != [] && Newest(Filter(items[..n], has), time) == items[i]
    ensures var k := if has(items[n]) && time(items[i]) <= time(items[n]) then n else i;
      IsNewestAt(items, k, has, time) && Filter(items, has) != [] && Newest(Filter(items, has), time) == items[k]
  {
    var kept := Filter(items[..n], has);
    NewestWithMore(items, n, i, has, time);
    FilterNext(items, n, has);
    assert items[..n + 1] == items;
    if has(items[n]) { NewestOfAppend(kept, items[n], time); } else { assert kept + [] == kept; }
  }

  lemma FirstKeptIsNewest<T(!new)>(items: seq<T>, n: nat, has: T -> bool, time: T -> int)
    requires |items| == n + 1 && Filter(items[..n], has) == [] && Filter(items, has) != []
    ensures IsNewestAt(items, n, has, time) && Newest(Filter(items, has), time) == items[n]
  {
    FilterNext(items, n, has);
    assert items[..n + 1] == items && Filter(items, has) == [items[n]];
    EmptyIffNone(items[..n], has);
    forall j | 0 <= j < n ensures !has(items[j]) { assert items[..n][j] in items[..n]; }
  }

  /** The newest of a filtered list is the newest in the list among those kept. */
  lemma {:induction false} NewestKeptIs<T(!new)>(items: seq<T>, has: T -> bool, time: T -> int) returns (i: nat)
    requires Filter(items, has) != []
    ensures IsNewestAt(items, i, has, time) && Newest(Filter(items, has), time) == items[i]
    decreases |items|
  {
    var n := |items| - 1;
    if Filter(items[..n], has) == [] {
      FirstKeptIsNewest(items, n, has, time);
      i := n;
    } else {
      i := NewestKeptIs(items[..n], has, time);
      NewestKeptWithMore(items, n, i, has, time);
      if has(items[n]) && time(items[i]) <= time(items[n]) { i := n; }
    }
  }

  lemma NewestIsUnique<T(!new)>(items: seq<T>, i: nat, j: nat, has: T -> bool, time: T -> int)
    requires IsNewestAt(items, i, has, time) && IsNewestAt(items, j, has, time)
    ensures i == j
  {
  }

  lemma LatestCalibrationIs(ctx: ReleaseContext, runId: string)
    ensures IsPassedByHuman(ctx, runId) <==>
      exists h :: LatestCalibration(ctx.calibrations, runId) == Some(h) && h.verdict == Passed &&
        !IsBlank(h.comment) && !IsBlank(h.reviewer)
  {
    var has, time := (c: HumanCalibration) => c.runId == runId, (c: HumanCalibration) => c.createdAt;
    if Filter(ctx.calibrations, has) == [] {
      EmptyIffNone(ctx.calibrations, has);
    } else {
      var i := NewestKeptIs(ctx.calibrations, has, time);
      forall j: nat | IsNewestAt(ctx.calibrations, j, has, time) ensures j == i {
        NewestIsUnique(ctx.calibrations, i, j, has, time);
      }
    }
  }

  /** Whether the last element has the key decides where the last such element is. */
  lemma LastWithMore<T(!new)>(items: seq<T>, n: nat, i: nat, has: T -> bool)
    requires |items| == n + 1
    ensures IsLastAt(items, i, has) <==> if has(items[n]) then i == n else IsLastAt(items[..n], i, has)
  {
    if IsLastAt(items[..n], i, has) && !has(items[n]) {
      forall j | i < j < |items| ensures !has(items[j]) { if j < n { assert items[..n][j] == items[j]; } }
    }
    if IsLastAt(items, i, has) && !has(items[n]) {
      forall j | i < j < n ensures !has(items[..n][j]) { assert items[..n][j] == items[j]; }
    }
  }

  lemma {:induction false} CaseByIdIs(cases: seq<EvalCase>, id: string) returns (i: nat)
    ensures match CaseById(cases, id)
            case None => forall k: nat :: !IsLastAt(cases, k, OfCase(id))
            case Some(c) => IsLastAt(cases, i, OfCase(id)) && cases[i] == c
    decreases |cases|
  {
    i := 0;
    if cases != [] {
      var n := |cases| - 1;
      i := CaseByIdIs(cases[..n], id);
      forall k: nat
        ensures IsLastAt(cases, k, OfCase(id)) <==> if cases[n].evalId == id then k == n else IsLastAt(cases[..n], k, OfCase(id))
      {
        LastWithMore(cases, n, k, OfCase(id));
      }
      if cases[n].evalId == id { i := n; }
    }
  }

  lemma LastIsUnique<T(!new)>(items: seq<T>, i: nat, j: nat, has: T -> bool)
    requires IsLastAt(items, i, has) && IsLastAt(items, j, has)
    ensures i == j
  {
  }

  lemma CurrentCaseIs(ctx: ReleaseContext, r: EvalRun)
    ensures IsOfCurrentCase(ctx, r) <==>
      var c := CaseById(ctx.cases, r.evalId); c.Some? && r.caseDigest == CaseDigestOf(c.value)
  {
    var i := CaseByIdIs(ctx.cases, r.evalId);
    if CaseById(ctx.cases, r.evalId).Some? {
      forall j: nat | IsLastAt(ctx.cases, j, OfCase(r.evalId)) ensures j == i { LastIsUnique(ctx.cases, i, j, OfCase(r.evalId)); }
    }
  }

  lemma CountsIffEvidence(ctx: ReleaseContext, r: EvalRun)
    ensures Counts(ctx, r) <==> IsReleaseEvidence(ctx, r, CaseById(ctx.cases, r.evalId), CurrentDigest(ctx))
  {
    LatestCalibrationIs(ctx, r.runId);
    CurrentCaseIs(ctx, r);
  }

  lemma MattersIffRelevant(ctx: ReleaseContext, e: EvalExperiment, r: EvalRun)
    ensures Matters(ctx, e, r) <==> IsRelevant(ctx, e, RequiredIds(ctx), r)
  {
    RequiredIdsAre(ctx, r.evalId);
    NoneRequiredIff(ctx);
  }

  lemma NoneRequiredIff(ctx: ReleaseContext)
    ensures RequiredIds(ctx) == [] <==> forall c :: !MustPass(ctx, c)
  {
    if c :| MustPass(ctx, c) { RequiredIdsAre(ctx, c.evalId); }
    if RequiredIds(ctx) != [] { RequiredIdsAre(ctx, RequiredIds(ctx)[0]); }
  }

  lemma HasRunIff(ctx: ReleaseContext, e: EvalExperiment)
    ensures (forall c :: MustPass(ctx, c) ==> HasRun(ctx, e, c.evalId)) <==> forall id :: id in RequiredIds(ctx) ==> HasRun(ctx, e, id)
  {
    forall id: string ensures id in RequiredIds(ctx) <==> exists c :: MustPass(ctx, c) && c.evalId == id { RequiredIdsAre(ctx, id); }
  }

  lemma CompleteBatchIff(ctx: ReleaseContext, e: EvalExperiment)
    ensures IsCompleteBatch(ctx, e, RequiredIds(ctx), CurrentDigest(ctx)) <==>
      && (exists r :: Matters(ctx, e, r)) && (forall r :: Matters(ctx, e, r) ==> Counts(ctx, r))
      && (forall id :: id in RequiredIds(ctx) ==> HasRun(ctx, e, id))
  {
    forall r: EvalRun
      ensures Matters(ctx, e, r) <==> IsRelevant(ctx, e, RequiredIds(ctx), r)
      ensures Counts(ctx, r) <==> IsReleaseEvidence(ctx, r, CaseById(ctx.cases, r.evalId), CurrentDigest(ctx))
    {
      MattersIffRelevant(ctx, e, r);
      CountsIffEvidence(ctx, r);
    }
    RunsByRelevance(ctx, e);
  }

  lemma RunsByRelevance(ctx: ReleaseContext, e: EvalExperiment)
    ensures forall id :: HasRun(ctx, e, id) <==> exists r :: IsRelevant(ctx, e, RequiredIds(ctx), r) && r.evalId == id
  {
    forall r: EvalRun ensures Matters(ctx, e, r) <==> IsRelevant(ctx, e, RequiredIds(ctx), r) { MattersIffRelevant(ctx, e, r); }
  }

  lemma PassedBatchIffReleaseBatch(ctx: ReleaseContext, e: EvalExperiment)
    ensures IsPassedBatch(ctx, e) <==> IsReleaseBatch(ctx, e, RequiredIds(ctx), CurrentDigest(ctx))
  {
    CompleteBatchIff(ctx, e);
    HasRunIff(ctx, e);
  }

  /** What a batch shows of its experiment: the runs that matter, and the cases they are of, in order. */
  ghost predicate IsBatchOf(ctx: ReleaseContext, batch: Batch, e: EvalExperiment)
  {
    && batch.experimentId == e.id
    && (forall id :: id in batch.runIds <==> exists r :: Matters(ctx, e, r) && r.runId == id)
    && (forall id :: id in batch.evalIds <==> HasRun(ctx, e, id)) && Increasing(batch.evalIds)
  }

  /** A batch is selected exactly if some experiment passed as a whole; it is then of the one that finished last. */
  lemma BatchIffPassed(ctx: ReleaseContext) returns (chosen: Option<EvalExperiment>)
    ensures chosen.Some? <==> exists e :: IsPassedBatch(ctx, e)
    ensures BuildReleaseEvidence(ctx, CurrentDigest(ctx)).batch.Some? <==> chosen.Some?
    ensures chosen.Some? ==>
      && IsPassedBatch(ctx, chosen.value) && (forall e :: IsPassedBatch(ctx, e) ==> FinishedNoLater(e, chosen.value))
      && IsBatchOf(ctx, BuildReleaseEvidence(ctx, CurrentDigest(ctx)).batch.value, chosen.value)
  {
    chosen := SelectionIsSoundCompleteAndLatest(ctx, RequiredIds(ctx), CurrentDigest(ctx));
    forall e: EvalExperiment ensures IsPassedBatch(ctx, e) <==> IsReleaseBatch(ctx, e, RequiredIds(ctx), CurrentDigest(ctx)) {
      PassedBatchIffReleaseBatch(ctx, e);
    }
    if chosen.Some? {
      BatchRunsMatter(ctx, chosen.value);
      BatchCasesHaveRuns(ctx, chosen.value);
      forall e | IsPassedBatch(ctx, e) ensures FinishedNoLater(e, chosen.value) { LaterIs(e, chosen.value); }
    }
  }

  lemma LaterIs(e: EvalExperiment, f: EvalExperiment)
    ensures NotAfter(e, f) <==> FinishedNoLater(e, f)
  {
  }

  lemma RunEvalIdsAre(ctx: ReleaseContext, e: EvalExperiment, id: string)
    ensures id in RunEvalIds(RelevantRuns(ctx, e, RequiredIds(ctx))) <==> HasRun(ctx, e, id)
  {
    var runs := RelevantRuns(ctx, e, RequiredIds(ctx));
    if id in RunEvalIds(runs) {
      var i :| 0 <= i < |runs| && runs[i].evalId == id;
      RelevantRunsAre(ctx, e, RequiredIds(ctx), runs[i]);
      MattersIffRelevant(ctx, e, runs[i]);
    }
    if HasRun(ctx, e, id) {
      var r :| Matters(ctx, e, r) && r.evalId == id;
      RelevantRunsAre(ctx, e, RequiredIds(ctx), r);
      MattersIffRelevant(ctx, e, r);
      var i :| 0 <= i < |runs| && runs[i] == r;
      assert RunEvalIds(runs)[i] == id;
    }
  }

  lemma RequiredHaveRuns(ctx: ReleaseContext, e: EvalExperiment, id: string)
    requires IsPassedBatch(ctx, e) && RequiredIds(ctx) != []
    ensures id in RequiredIds(ctx) <==> HasRun(ctx, e, id)
  {
    RequiredIdsAre(ctx, id);
    NoneRequiredIff(ctx);
  }

  lemma BatchCasesHaveRuns(ctx: ReleaseContext, e: EvalExperiment)
    requires IsPassedBatch(ctx, e)
    ensures var evalIds := BatchOf(e, RelevantRuns(ctx, e, RequiredIds(ctx)), RequiredIds(ctx)).evalIds;
      Increasing(evalIds) && forall id :: id in evalIds <==> HasRun(ctx, e, id)
  {
    var ids := RunEvalIds(RelevantRuns(ctx, e, RequiredIds(ctx)));
    SortedUniqueIncreases(EvalIds(RequiredCases(ctx)));
    SortedUniqueIncreases(ids);
    forall id: string ensures if RequiredIds(ctx) == [] then id in SortedUnique(ids) <==> HasRun(ctx, e, id)
                              else id in RequiredIds(ctx) <==> HasRun(ctx, e, id) {
      if RequiredIds(ctx) == [] {
        SortedUniqueMembers(ids, id);
        RunEvalIdsAre(ctx, e, id);
      } else {
        RequiredHaveRuns(ctx, e, id);
      }
    }
  }

  lemma BatchRunsMatter(ctx: ReleaseContext, e: EvalExperiment)
    ensures forall id :: id in RunIds(RelevantRuns(ctx, e, RequiredIds(ctx))) <==> exists r :: Matters(ctx, e, r) && r.runId == id
  {
    var runs := RelevantRuns(ctx, e, RequiredIds(ctx));
    forall r: EvalRun ensures r in runs <==> Matters(ctx, e, r) {
      RelevantRunsAre(ctx, e, RequiredIds(ctx), r);
      MattersIffRelevant(ctx, e, r);
    }
    forall id: string ensures id in RunIds(runs) <==> exists r :: r in runs && r.runId == id {
      if id in RunIds(runs) {
        var i :| 0 <= i < |runs| && runs[i].runId == id;
        assert runs[i] in runs;
      }
      if r :| r in runs && r.runId == id {
        var i :| 0 <= i < |runs| && runs[i] == r;
        assert RunIds(runs)[i] == id;
      }
    }
  }

  lemma {:induction false} LatestIndexIs(ts: seq<RiskTreatment>, t: SourceType, id: string)
    ensures match LatestIndex(ts, t, id)
            case None => forall x :: x in ts ==> !(x.sourceType == t && x.sourceId == id)
            case Some(i) =>
              IsNewestAt(ts, i, (x: RiskTreatment) => x.sourceType == t && x.sourceId == id, (x: RiskTreatment) => x.updatedAt)
  {
    if ts != [] {
      var n := |ts| - 1;
      LatestIndexIs(ts[..n], t, id);
      forall j | 0 <= j < n && ts[j].sourceType == t && ts[j].sourceId == id ensures ts[..n][j] in ts[..n] {}
    }
  }

  lemma TreatedIffComplete(ctx: ReleaseContext, t: SourceType, id: string)
    ensures IsTreated(ctx, t, id) <==>
      EvaluateTreatment(Latest(ctx.treatments, t, id), CurrentDigest(ctx)) == CompleteTreatment
  {
    var has, time := (x: RiskTreatment) => x.sourceType == t && x.sourceId == id, (x: RiskTreatment) => x.updatedAt;
    LatestIndexIs(ctx.treatments, t, id);
    match LatestIndex(ctx.treatments, t, id)
    case None =>
    case Some(i) =>
      forall j: nat | IsNewestAt(ctx.treatments, j, has, time) ensures j == i { NewestIsUnique(ctx.treatments, i, j, has, time); }
  }

  lemma {:induction false} VerifiedIs(evidence: seq<EvidenceSource>, id: string)
    ensures IsVerified(evidence, id) <==>
      exists i: nat :: IsLastAt(evidence, i, (x: EvidenceSource) => x.id == id) && evidence[i].verified
  {
    var has := (x: EvidenceSource) => x.id == id;
    if evidence != [] {
      var n := |evidence| - 1;
      VerifiedIs(evidence[..n], id);
      forall i: nat ensures IsLastAt(evidence, i, has) <==> if has(evidence[n]) then i == n else IsLastAt(evidence[..n], i, has) {
        LastWithMore(evidence, n, i, has);
      }
    }
  }

  lemma GapIsNamed(ctx: ReleaseContext, m: FailureMode) returns (id: string)
    requires !(m.evidenceIds != [] && forall id :: id in m.evidenceIds ==> IsVerifiedEvidence(ctx, id))
    ensures NamesGap(ctx.evidence, m, id)
  {
    id := m.id;
    if m.evidenceIds != [] {
      id :| id in m.evidenceIds && !IsVerifiedEvidence(ctx, id);
      VerifiedIs(ctx.evidence, id);
    }
  }

  /** Without gaps exactly if every severe failure mode rests on evidence, all of it verified. */
  lemma EvidenceCheckIff(ctx: ReleaseContext)
    ensures EvidenceGaps(ctx.evidence, Modes(ctx)) == [] <==> EvidenceIsVerified(ctx)
  {
    var gaps := EvidenceGaps(ctx.evidence, Modes(ctx));
    if gaps != [] {
      EvidenceGapsAre(ctx.evidence, Modes(ctx), gaps[0]);
      VerifiedIs(ctx.evidence, gaps[0].sourceId);
    }
    if !EvidenceIsVerified(ctx) {
      var m :| m in ctx.stage1.value && m.severity in {High, Critical} &&
        !(m.evidenceIds != [] && forall id :: id in m.evidenceIds ==> IsVerifiedEvidence(ctx, id));
      var id := GapIsNamed(ctx, m);
      EvidenceGapsAre(ctx.evidence, Modes(ctx), ReleaseBlocker(UnverifiedEvidence, id));
    }
  }

  lemma CoveredIsTreated(ctx: ReleaseContext, t: SourceType, id: string)
    requires IsBusiness(ctx) && TreatmentBlockers(ctx) == [] && Covers(Requirements(ctx), t, id)
    ensures IsTreated(ctx, t, id)
  {
    NoBlockerMeansAllComplete(Requirements(ctx), ctx.treatments, CurrentDigest(ctx));
    TreatedIffComplete(ctx, t, id);
  }

  lemma RequirementIsTreated(ctx: ReleaseContext, r: Requirement)
    requires RisksAreTreated(ctx) && r in Requirements(ctx)
    ensures EvaluateTreatment(Latest(ctx.treatments, r.sourceType, r.sourceId), CurrentDigest(ctx)) == CompleteTreatment
  {
    assert Covers(Requirements(ctx), r.sourceType, r.sourceId);
    RequirementsAreExact(ctx, r.sourceType, r.sourceId);
    TreatedIffComplete(ctx, r.sourceType, r.sourceId);
  }

  /** No treatment is missing exactly if every severe failure mode and open severe finding is treated. */
  lemma TreatmentCheckIff(ctx: ReleaseContext)
    requires IsBusiness(ctx)
    ensures TreatmentBlockers(ctx) == [] <==> RisksAreTreated(ctx)
  {
    NoBlockerMeansAllComplete(Requirements(ctx), ctx.treatments, CurrentDigest(ctx));
    if RisksAreTreated(ctx) {
      forall r | r in Requirements(ctx)
        ensures EvaluateTreatment(Latest(ctx.treatments, r.sourceType, r.sourceId), CurrentDigest(ctx)) == CompleteTreatment
      {
        RequirementIsTreated(ctx, r);
      }
    }
    if TreatmentBlockers(ctx) == [] {
      forall m | m in Modes(ctx) && m.severity in {High, Critical} ensures IsTreated(ctx, FailureModeSource, m.id) {
        RequirementsAreExact(ctx, FailureModeSource, m.id);
        CoveredIsTreated(ctx, FailureModeSource, m.id);
      }
      forall f | f in ctx.findings && f.status == Open && f.severity in {High, Critical}
        ensures IsTreated(ctx, SafetyFindingSource, f.id)
      {
        RequirementsAreExact(ctx, SafetyFindingSource, f.id);
        CoveredIsTreated(ctx, SafetyFindingSource, f.id);
      }
    }
  }

  /** No node is without a case exactly if every high-risk node of the workflow has one that must pass. */
  lemma NodeCheckIff(ctx: ReleaseContext)
    ensures MissingNodeIds(ctx) == [] <==> NodesHaveCases(ctx)
  {
    var cases := RequiredCases(ctx);
    EmptyIffNone(RequiredNodeIds(ctx), id => !exists c :: c in cases && c.targetNodeId == Some(id));
    forall c: EvalCase ensures c in cases <==> MustPass(ctx, c) { RequiredCasesAre(ctx, c); }
    forall id: string ensures id in RequiredNodeIds(ctx) <==> IsHighRiskNode(ctx, id) { RequiredNodesAre(ctx, id); }
  }

  lemma EvidenceBlockersIff(ctx: ReleaseContext)
    ensures BuildReleaseEvidence(ctx, CurrentDigest(ctx)).blockers == [] <==>
      && DeploymentDeclared(ctx) && MissingNodeIds(ctx) == [] && exists e :: IsPassedBatch(ctx, e)
  {
    var chosen := BatchIffPassed(ctx);
    var selection := SelectionIsSoundCompleteAndLatest(ctx, RequiredIds(ctx), CurrentDigest(ctx));
  }

  lemma OpenChecksIff(ctx: ReleaseContext)
    ensures PendingBlocking(ctx) == [] <==>
      forall a :: a in ctx.actions ==> !(a.status == Pending && a.blocking && a.version == VersionById(ctx.versions, a.stageId))
    ensures OpenRisks(ctx) == [] <==> forall f :: f in ctx.findings ==> !(f.status == Open && f.severity in {High, Critical})
  {
    EmptyIffNone(ctx.actions,
                 (a: HumanAction) => a.status == Pending && a.blocking && a.version == VersionById(ctx.versions, a.stageId));
    EmptyIffNone(ctx.findings, IsOpenRisk);
  }

  lemma ProgressCheckIff(ctx: ReleaseContext)
    ensures ProgressBlockers(ctx) == [] <==> IsEvaluated(ctx) && NothingIsOpen(ctx)
  {
    OpenChecksIff(ctx);
    var p := ProgressOf(ctx);
    assert BlockersOf(p) == [] <==> p == Progress(true, true, false, false, false, false) by {
      assert |BlockersOf(p)| ==
        (if p.complete && p.outputs then 0 else 1) + (if p.stale then 1 else 0) + (if p.pending then 1 else 0) +
        (if p.unparsed then 1 else 0) + (if p.openRisks then 1 else 0);
    }
  }

  lemma BlockersIff(ctx: ReleaseContext)
    ensures AllBlockers(ctx) == [] <==>
      && ProgressBlockers(ctx) == [] && EvidenceGaps(ctx.evidence, Modes(ctx)) == [] && TreatmentBlockers(ctx) == []
      && BuildReleaseEvidence(ctx, CurrentDigest(ctx)).blockers == []
  {
    assert |AllBlockers(ctx)| == |ProgressBlockers(ctx)| + |EvidenceGaps(ctx.evidence, Modes(ctx))| + |TreatmentBlockers(ctx)| +
      |BuildReleaseEvidence(ctx, CurrentDigest(ctx)).blockers|;
  }

  /**
    Approval is possible exactly if the session meets every requirement: a business session, evaluated to the end with
    nothing stale or unparsed; no blocking action of a current version pending and no severe finding open; every severe
    failure mode on verified evidence and treated; a declared deployment; and one batch that passed on it.
   */
  lemma MayBeApprovedIff(ctx: ReleaseContext)
    ensures BuildReadiness(ctx).canApprove <==> MeetsAllRequirements(ctx)
  {
    ReadinessAgrees(ctx);
    if IsBusiness(ctx) {
      BlockersIff(ctx);
      ProgressCheckIff(ctx);
      EvidenceCheckIff(ctx);
      TreatmentCheckIff(ctx);
      EvidenceBlockersIff(ctx);
      NodeCheckIff(ctx);
    }
  }

  // ----- what the blockers say -----------------------------------------------------------------

  lemma CodesAdd(a: seq<ReleaseBlocker>, b: seq<ReleaseBlocker>, code: Code)
    ensures HasCode(a + b, code) <==> HasCode(a, code) || HasCode(b, code)
  {
  }

  lemma OneIfHas(condition: bool, code: Code, asked: Code)
    ensures HasCode(OneIf(condition, code), asked) <==> condition && asked == code
  {
    if condition { assert OneIf(condition, code)[0] == ReleaseBlocker(code, ""); }
  }

  lemma ProgressCodesAre(p: Progress, code: Code)
    ensures HasCode(BlockersOf(p), code) <==>
      || (code == EvaluationNotCompleted && !p.complete) || (code == MissingStageOutput && p.complete && !p.outputs)
      || (code == StaleStage && p.stale) || (code == PendingActions && p.pending) || (code == ParserErrors && p.unparsed)
      || (code == OpenSafetyFindings && p.openRisks)
  {
    var first := OneIf(!p.complete, EvaluationNotCompleted) + OneIf(p.complete && !p.outputs, MissingStageOutput);
    var second := first + OneIf(p.stale, StaleStage);
    var third := second + OneIf(p.pending, PendingActions);
    var fourth := third + OneIf(p.unparsed, ParserErrors);
    assert BlockersOf(p) == fourth + OneIf(p.openRisks, OpenSafetyFindings);
    CodesAdd(OneIf(!p.complete, EvaluationNotCompleted), OneIf(p.complete && !p.outputs, MissingStageOutput), code);
    CodesAdd(first, OneIf(p.stale, StaleStage), code);
    CodesAdd(second, OneIf(p.pending, PendingActions), code);
    CodesAdd(third, OneIf(p.unparsed, ParserErrors), code);
    CodesAdd(fourth, OneIf(p.openRisks, OpenSafetyFindings), code);
    OneIfHas(!p.complete, EvaluationNotCompleted, code);
    OneIfHas(p.complete && !p.outputs, MissingStageOutput, code);
    OneIfHas(p.stale, StaleStage, code);
    OneIfHas(p.pending, PendingActions, code);
    OneIfHas(p.unparsed, ParserErrors, code);
    OneIfHas(p.openRisks, OpenSafetyFindings, code);
  }

  /** Each gap in the evidence names a severe failure mode without evidence, or a piece of evidence not verified. */
  lemma {:induction false} EvidenceGapsAre(evidence: seq<EvidenceSource>, modes: seq<FailureMode>, b: ReleaseBlocker)
    ensures b in EvidenceGaps(evidence, modes) <==>
      b.code == UnverifiedEvidence && SomeGap(evidence, modes, b.sourceId)
  {
    if modes != [] {
      var before, last := modes[..|modes| - 1], modes[|modes| - 1];
      EvidenceGapsAre(evidence, before, b);
      ModeGapsAre(evidence, last, b);
      GapsOfBoth(evidence, before, last, EvidenceGaps(evidence, before), ModeEvidenceBlockers(evidence, last), b);
      assert modes == before + [last];
    }
  }

  lemma GapsOfBoth(evidence: seq<EvidenceSource>, before: seq<FailureMode>, last: FailureMode,
                   older: seq<ReleaseBlocker>, newer: seq<ReleaseBlocker>, b: ReleaseBlocker)
    requires b in older <==> b.code == UnverifiedEvidence && SomeGap(evidence, before, b.sourceId)
    requires b in newer <==> b.code == UnverifiedEvidence && SomeGap(evidence, [last], b.sourceId)
    ensures b in older + newer <==> b.code == UnverifiedEvidence && SomeGap(evidence, before + [last], b.sourceId)
  {
  }

  ghost predicate NamesGap(evidence: seq<EvidenceSource>, m: FailureMode, id: string)
  {
    if m.evidenceIds == [] then id == m.id else id in m.evidenceIds && !IsVerified(evidence, id)
  }

  ghost predicate SomeGap(evidence: seq<EvidenceSource>, modes: seq<FailureMode>, id: string)
  {
    exists m :: m in modes && m.severity in {High, Critical} && NamesGap(evidence, m, id)
  }

  lemma ModeGapsAre(evidence: seq<EvidenceSource>, m: FailureMode, b: ReleaseBlocker)
    ensures b in ModeEvidenceBlockers(evidence, m) <==> b.code == UnverifiedEvidence && SomeGap(evidence, [m], b.sourceId)
  {
    var keep := (id: string) => !IsVerified(evidence, id);
    FilterMembers(FirstAppearances(m.evidenceIds), keep);
    FirstAppearancesAre(m.evidenceIds, b.sourceId);
    var bad := Filter(FirstAppearances(m.evidenceIds), keep);
    if IsSevere(m.severity) && m.evidenceIds != [] && b.code == UnverifiedEvidence && b.sourceId in bad {
      var i :| 0 <= i < |bad| && bad[i] == b.sourceId;
      assert ModeEvidenceBlockers(evidence, m)[i] == b;
    }
  }

  lemma GapCodes(evidence: seq<EvidenceSource>, modes: seq<FailureMode>, code: Code)
    ensures HasCode(EvidenceGaps(evidence, modes), code) <==> code == UnverifiedEvidence && EvidenceGaps(evidence, modes) != []
  {
    var gaps := EvidenceGaps(evidence, modes);
    forall b | b in gaps ensures b.code == UnverifiedEvidence { EvidenceGapsAre(evidence, modes, b); }
    if gaps != [] { assert gaps[0] in gaps; }
  }

  lemma TreatmentCodes(ctx: ReleaseContext, code: Code)
    ensures HasCode(TreatmentGaps(ctx), code) <==> code == TreatmentGap && TreatmentBlockers(ctx) != []
  {
    if TreatmentBlockers(ctx) != [] { assert TreatmentGaps(ctx)[0] in TreatmentGaps(ctx); }
  }

  lemma OtherCodes(ctx: ReleaseContext, code: Code)
    ensures HasCode(EvidenceGaps(ctx.evidence, Modes(ctx)), code) <==>
      code == UnverifiedEvidence && EvidenceGaps(ctx.evidence, Modes(ctx)) != []
    ensures HasCode(TreatmentGaps(ctx), code) <==> code == TreatmentGap && TreatmentBlockers(ctx) != []
  {
    GapCodes(ctx.evidence, Modes(ctx), code);
    TreatmentCodes(ctx, code);
  }

  lemma AllCodesAre(ctx: ReleaseContext, code: Code)
    ensures HasCode(AllBlockers(ctx), code) <==>
      || HasCode(ProgressBlockers(ctx), code) || HasCode(EvidenceGaps(ctx.evidence, Modes(ctx)), code)
      || HasCode(TreatmentGaps(ctx), code) || HasCode(FromEvidence(BuildReleaseEvidence(ctx, CurrentDigest(ctx)).blockers), code)
  {
    var a, b, c := ProgressBlockers(ctx), EvidenceGaps(ctx.evidence, Modes(ctx)), TreatmentGaps(ctx);
    var d := FromEvidence(BuildReleaseEvidence(ctx, CurrentDigest(ctx)).blockers);
    CodesAdd(a, b, code);
    CodesAdd(a + b, c, code);
    CodesAdd(a + b + c, d, code);
  }

  lemma ProgressSays(ctx: ReleaseContext, code: Code)
    ensures HasCode(ProgressBlockers(ctx), code) <==>
      match code
      case EvaluationNotCompleted => ctx.state != Complete
      case MissingStageOutput => ctx.state == Complete && (ctx.stage1.None? || ctx.stage2.None? || ctx.stage3.None? || ctx.stage4.None?)
      case StaleStage => ctx.staleKeys != []
      case PendingActions =>
        (exists a :: a in ctx.actions && a.status == Pending && a.blocking && a.version == VersionById(ctx.versions, a.stageId))
      case ParserErrors => ctx.parserErrors != []
      case OpenSafetyFindings => (exists f :: f in ctx.findings && f.status == Open && f.severity in {High, Critical})
      case _ => false
  {
    ProgressCodesAre(ProgressOf(ctx), code);
    OpenChecksIff(ctx);
  }

  /**
    Outside the evidence of the release itself: each blocker is there exactly for what it names, a state, an action,
    a finding, a failure mode without verified evidence or a risk without a treatment.
   */
  lemma BlockersSayWhatIsMissing(ctx: ReleaseContext, code: Code)
    requires IsBusiness(ctx) && !code.Evidence?
    ensures HasCode(AllBlockers(ctx), code) <==>
      match code
      case UnverifiedEvidence => !EvidenceIsVerified(ctx)
      case TreatmentGap => !RisksAreTreated(ctx)
      case EvaluationNotCompleted => ctx.state != Complete
      case MissingStageOutput => ctx.state == Complete && (ctx.stage1.None? || ctx.stage2.None? || ctx.stage3.None? || ctx.stage4.None?)
      case StaleStage => ctx.staleKeys != []
      case PendingActions =>
        (exists a :: a in ctx.actions && a.status == Pending && a.blocking && a.version == VersionById(ctx.versions, a.stageId))
      case ParserErrors => ctx.parserErrors != []
      case OpenSafetyFindings => (exists f :: f in ctx.findings && f.status == Open && f.severity in {High, Critical})
      case _ => false
  {
    AllCodesAre(ctx, code);
    ProgressSays(ctx, code);
    OtherCodes(ctx, code);
    EvidenceCheckIff(ctx);
    TreatmentCheckIff(ctx);
    NoForeignCode(BuildReleaseEvidence(ctx, CurrentDigest(ctx)).blockers, code);
  }

  lemma NoForeignCode(blockers: seq<EvidenceBlocker>, code: Code)
    requires !code.Evidence?
    ensures !HasCode(FromEvidence(blockers), code)
  {
  }

  ghost predicate NamesRuns(blockers: seq<EvidenceBlocker>)
  {
    forall b :: b in blockers ==> b.code in {ReleaseBatchCode, RealTargetTest}
  }

  lemma {:induction false} SelectingNamesRuns(js: seq<Judged>, k: nat, required: seq<string>, best: seq<EvidenceBlocker>,
                                              valid: seq<EvalRun>)
    requires k <= |js| && NamesRuns(best) && forall j :: j in js ==> NamesRuns(j.blockers)
    ensures NamesRuns(SelectFrom(js, k, required, best, valid).blockers)
    decreases |js| - k
  {
    if k < |js| && !js[k].qualifies {
      SelectingNamesRuns(js, k + 1, required, NextBest(js[k], required, best), if required == [] then valid else valid + js[k].valid);
    }
  }

  lemma {:induction false} MissingNameRuns(ctx: ReleaseContext, missing: seq<string>)
    ensures NamesRuns(MissingBlockers(ctx, missing))
  {
    if missing != [] { MissingNameRuns(ctx, missing[..|missing| - 1]); }
  }

  lemma {:induction false} InvalidNameRuns(ctx: ReleaseContext, invalid: seq<EvalRun>, digest: VersionDigest)
    ensures NamesRuns(RunBlockers(ctx, invalid, digest))
  {
    if invalid != [] { InvalidNameRuns(ctx, invalid[..|invalid| - 1], digest); }
  }

  lemma SelectionNamesRuns(ctx: ReleaseContext, required: seq<string>, digest: VersionDigest)
    ensures NamesRuns(SelectBatch(ctx, required, digest).blockers)
  {
    var es := Candidates(ctx);
    var js := JudgeAll(ctx, es, required, digest);
    forall j | j in js ensures NamesRuns(j.blockers) {
      var runs := j.runs;
      MissingNameRuns(ctx, MissingCases(runs, required));
      InvalidNameRuns(ctx, InvalidRuns(ctx, runs, digest), digest);
    }
    SelectingNamesRuns(js, 0, required, [], []);
  }

  lemma MissingNodesAre(ctx: ReleaseContext, id: string)
    ensures id in MissingNodeIds(ctx) <==> IsHighRiskNode(ctx, id) && forall c :: MustPass(ctx, c) ==> c.targetNodeId != Some(id)
  {
    var cases := RequiredCases(ctx);
    FilterMembers(RequiredNodeIds(ctx), x => !exists c :: c in cases && c.targetNodeId == Some(x));
    RequiredNodesAre(ctx, id);
    forall c: EvalCase ensures c in cases <==> MustPass(ctx, c) { RequiredCasesAre(ctx, c); }
  }

  ghost predicate HasEvidenceCode(blockers: seq<EvidenceBlocker>, code: BlockerCode)
  {
    exists b :: b in blockers && b.code == code
  }

  ghost predicate NamesNode(blockers: seq<EvidenceBlocker>, id: string)
  {
    exists b :: b in blockers && b.code == RequiredTestCase && b.sourceId == id
  }

  lemma EvidenceCodesAdd(a: seq<EvidenceBlocker>, b: seq<EvidenceBlocker>, code: BlockerCode, id: string)
    ensures HasEvidenceCode(a + b, code) <==> HasEvidenceCode(a, code) || HasEvidenceCode(b, code)
    ensures NamesNode(a + b, id) <==> NamesNode(a, id) || NamesNode(b, id)
  {
  }

  function NodeGaps(missing: seq<string>): seq<EvidenceBlocker>
  {
    seq(|missing|, i requires 0 <= i < |missing| => EvidenceBlocker(RequiredTestCase, "eval_node", missing[i], []))
  }

  lemma NodeGapsName(missing: seq<string>, id: string)
    ensures NamesNode(NodeGaps(missing), id) <==> id in missing
  {
    if id in missing {
      var i :| 0 <= i < |missing| && missing[i] == id;
      assert NodeGaps(missing)[i] in NodeGaps(missing);
    }
  }

  lemma PartsSay(declared: bool, missing: seq<string>, rest: seq<EvidenceBlocker>, code: BlockerCode, id: string)
    requires NamesRuns(rest)
    ensures var undeclared := if declared then [] else [EvidenceBlocker(TargetDeploymentCode, "target_deployment", "", [])];
      var blockers := undeclared + NodeGaps(missing) + rest;
      && (NamesNode(blockers, id) <==> id in missing)
      && (HasEvidenceCode(blockers, TargetDeploymentCode) <==> !declared)
      && (code in {ReleaseBatchCode, RealTargetTest} ==> (HasEvidenceCode(blockers, code) <==> HasEvidenceCode(rest, code)))
  {
    var undeclared := if declared then [] else [EvidenceBlocker(TargetDeploymentCode, "target_deployment", "", [])];
    NodeGapsName(missing, id);
    EvidenceCodesAdd(undeclared, NodeGaps(missing), code, id);
    EvidenceCodesAdd(undeclared + NodeGaps(missing), rest, code, id);
    EvidenceCodesAdd(undeclared, NodeGaps(missing), TargetDeploymentCode, id);
    EvidenceCodesAdd(undeclared + NodeGaps(missing), rest, TargetDeploymentCode, id);
    if !declared { assert undeclared[0] in undeclared; }
  }

  /** The list in its three parts, each with codes of its own. */
  lemma EvidencePartsAre(ctx: ReleaseContext, code: BlockerCode, id: string)
    ensures var blockers, s := BuildReleaseEvidence(ctx, CurrentDigest(ctx)).blockers, SelectBatch(ctx, RequiredIds(ctx), CurrentDigest(ctx));
      && (NamesNode(blockers, id) <==> id in MissingNodeIds(ctx))
      && (HasEvidenceCode(blockers, TargetDeploymentCode) <==> !DeploymentDeclared(ctx))
      && (code in {ReleaseBatchCode, RealTargetTest} ==> (HasEvidenceCode(blockers, code) <==> HasEvidenceCode(s.blockers, code)))
  {
    SelectionNamesRuns(ctx, RequiredIds(ctx), CurrentDigest(ctx));
    PartsSay(DeploymentDeclared(ctx), MissingNodeIds(ctx), SelectBatch(ctx, RequiredIds(ctx), CurrentDigest(ctx)).blockers, code, id);
  }

  lemma RunsAreNamedIffNoBatch(ctx: ReleaseContext)
    ensures var s := SelectBatch(ctx, RequiredIds(ctx), CurrentDigest(ctx));
      HasEvidenceCode(s.blockers, ReleaseBatchCode) || HasEvidenceCode(s.blockers, RealTargetTest) <==> forall e :: !IsPassedBatch(ctx, e)
  {
    var s := SelectBatch(ctx, RequiredIds(ctx), CurrentDigest(ctx));
    var _ := BatchIffPassed(ctx);
    var _ := SelectionIsSoundCompleteAndLatest(ctx, RequiredIds(ctx), CurrentDigest(ctx));
    SelectionNamesRuns(ctx, RequiredIds(ctx), CurrentDigest(ctx));
    if s.blockers != [] { assert s.blockers[0] in s.blockers; }
  }

  /** The release's own blockers: a missing deployment, each uncovered node, and, exactly without a batch, what runs lack. */
  lemma EvidenceBlockersSayWhatIsMissing(ctx: ReleaseContext, id: string)
    ensures var blockers := BuildReleaseEvidence(ctx, CurrentDigest(ctx)).blockers;
      && (HasEvidenceCode(blockers, TargetDeploymentCode) <==> !DeploymentDeclared(ctx))
      && (NamesNode(blockers, id) <==> IsHighRiskNode(ctx, id) && forall c :: MustPass(ctx, c) ==> c.targetNodeId != Some(id))
      && (HasEvidenceCode(blockers, ReleaseBatchCode) || HasEvidenceCode(blockers, RealTargetTest) <==>
            forall e :: !IsPassedBatch(ctx, e))
  {
    EvidencePartsAre(ctx, ReleaseBatchCode, id);
    EvidencePartsAre(ctx, RealTargetTest, id);
    MissingNodesAre(ctx, id);
    RunsAreNamedIffNoBatch(ctx);
  }

  lemma FromEvidenceHas(blockers: seq<EvidenceBlocker>, code: BlockerCode)
    ensures HasCode(FromEvidence(blockers), Evidence(code)) <==> HasEvidenceCode(blockers, code)
  {
    if b :| b in blockers && b.code == code {
      var i :| 0 <= i < |blockers| && blockers[i] == b;
      assert FromEvidence(blockers)[i] in FromEvidence(blockers);
    }
  }

  lemma EvidenceCodeIs(ctx: ReleaseContext, code: BlockerCode)
    ensures HasCode(AllBlockers(ctx), Evidence(code)) <==>
      HasEvidenceCode(BuildReleaseEvidence(ctx, CurrentDigest(ctx)).blockers, code)
  {
    var asked := Evidence(code);
    AllCodesAre(ctx, asked);
    ProgressCodesAre(ProgressOf(ctx), asked);
    GapCodes(ctx.evidence, Modes(ctx), asked);
    TreatmentCodes(ctx, asked);
    FromEvidenceHas(BuildReleaseEvidence(ctx, CurrentDigest(ctx)).blockers, code);
  }

  lemma UncoveredNodeIsNamed(ctx: ReleaseContext)
    ensures HasEvidenceCode(BuildReleaseEvidence(ctx, CurrentDigest(ctx)).blockers, RequiredTestCase) <==> !NodesHaveCases(ctx)
  {
    var bs, missing := BuildReleaseEvidence(ctx, CurrentDigest(ctx)).blockers, MissingNodeIds(ctx);
    NodeCheckIff(ctx);
    if missing != [] { EvidencePartsAre(ctx, RequiredTestCase, missing[0]); }
    if b :| b in bs && b.code == RequiredTestCase {
      EvidencePartsAre(ctx, RequiredTestCase, b.sourceId);
      assert NamesNode(bs, b.sourceId);
    }
  }

  lemma EvidenceChecksIff(ctx: ReleaseContext)
    ensures var c := ChecksOf(ctx);
      && (c.deploymentDeclared <==> DeploymentDeclared(ctx)) && (c.requiredCasesDefined <==> NodesHaveCases(ctx))
      && (c.batchComplete <==> exists e :: IsPassedBatch(ctx, e))
      && (c.realTargetTestsPassed <==> exists e :: IsPassedBatch(ctx, e))
  {
    EvidenceCodeIs(ctx, TargetDeploymentCode);
    EvidenceCodeIs(ctx, RequiredTestCase);
    EvidenceCodeIs(ctx, RealTargetTest);
    UncoveredNodeIsNamed(ctx);
    EvidencePartsAre(ctx, RealTargetTest, "");
    BatchIsThereIff(ctx);
  }

  lemma BatchIsThereIff(ctx: ReleaseContext)
    ensures BuildReleaseEvidence(ctx, CurrentDigest(ctx)).batch.Some? <==> exists e :: IsPassedBatch(ctx, e)
    ensures (exists e :: IsPassedBatch(ctx, e)) ==> SelectBatch(ctx, RequiredIds(ctx), CurrentDigest(ctx)).blockers == []
  {
    var chosen := BatchIffPassed(ctx);
    var _ := SelectionIsSoundCompleteAndLatest(ctx, RequiredIds(ctx), CurrentDigest(ctx));
  }

  /** Each check of the readiness of a business session holds exactly if what it is named after does. */
  lemma ChecksSayWhatHolds(ctx: ReleaseContext)
    requires IsBusiness(ctx)
    ensures var c := ChecksOf(ctx);
      && (c.evaluationCompleted <==>
            ctx.state == Complete && ctx.stage1.Some? && ctx.stage2.Some? && ctx.stage3.Some? && ctx.stage4.Some? && ctx.staleKeys == [])
      && (c.noStaleOutputs <==> ctx.staleKeys == []) && (c.noParserErrors <==> ctx.parserErrors == [])
      && (c.noPendingActions <==>
            forall a :: a in ctx.actions ==> !(a.status == Pending && a.blocking && a.version == VersionById(ctx.versions, a.stageId)))
      && (c.noOpenFindings <==> forall f :: f in ctx.findings ==> !(f.status == Open && f.severity in {High, Critical}))
      && (c.verifiedEvidence <==> EvidenceIsVerified(ctx)) && (c.treatmentsComplete <==> RisksAreTreated(ctx))
      && (c.deploymentDeclared <==> ctx.deployment.Some? && ctx.deployment.value.endpoint != "" && ctx.deployment.value.version != "")
      && (c.requiredCasesDefined <==> NodesHaveCases(ctx))
      && (c.batchComplete <==> exists e :: IsPassedBatch(ctx, e))
      && (c.realTargetTestsPassed <==> exists e :: IsPassedBatch(ctx, e))
  {
    OpenChecksIff(ctx);
    EvidenceCheckIff(ctx);
    TreatmentCheckIff(ctx);
    EvidenceChecksIff(ctx);
  }
}
