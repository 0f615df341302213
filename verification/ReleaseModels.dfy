/** The entities a release decision is computed from. */
module ReleaseModels {
  import opened Prelude
  import opened Models
  import opened Lineage

  datatype Severity = Low | Medium | High | Critical

  predicate IsSevere(s: Severity) { s == High || s == Critical }

  datatype Classification = PublicDemo | BusinessInternal | SensitivePersonal

  datatype FailureMode = FailureMode(id: string, category: string, severity: Severity, evidenceIds: seq<string>)

  datatype WorkflowNode = WorkflowNode(
    nodeId: string, stageName: string, model: string, prompt: string, failureModes: seq<string>)

  datatype TestResult = TestResult(nodeId: string, scenario: string, input: string, criteria: seq<string>)

  datatype TriggerMethod = TriggerMethod(nodeId: string, modelOrMode: string, instruction: string)

  datatype Deployment = Deployment(endpoint: string, version: string)

  datatype FindingStatus = Open | Closed | Dismissed

  datatype SafetyFinding = SafetyFinding(id: string, severity: Severity, status: FindingStatus)

  datatype EvidenceSource = EvidenceSource(id: string, verified: bool)

  /** A test definition; the last three fields are outcomes and no part of the definition. */
  datatype EvalCase = EvalCase(
    evalId: string, stageId: int, targetNodeId: Option<string>, scenario: string, input: string,
    expected: string, criteria: seq<string>, failureModes: seq<string>, standardVersion: int,
    passed: Option<bool>, humanScore: Option<int>, actualOutput: Option<string>)

  datatype RunMode = ManualMode | DryRunMode | LlmNodeMode | TargetHttpMode

  datatype ExecutionKind =
    | ManualSimulation | DryRunSimulation | MockModelExecution | PlatformModelExecution | RealTargetExecution

  datatype ExecutionOutcome = NoOutcome | Success | Failure | Timeout | ErrorOutcome

  datatype RunStatus = Created | InProgress | Completed | FailedRun

  datatype Verdict = NoVerdict | Passed | FailedVerdict | NeedsReview

  datatype JudgeMode = Inherited | RuleJudge | LlmJudge | HumanJudge

  /**
    A digest is taken to be injective, so it is modelled as what it covers. Lists the code sorts before
    hashing are multisets here.
   */
  datatype CaseDigest = NoCase | CaseDigest(
    evalId: string, stageId: int, targetNodeId: Option<string>, scenario: string, input: string,
    expected: string, criteria: seq<string>, failureModes: multiset<string>, standardVersion: int)

  datatype FailureModeEntry = FailureModeEntry(
    id: string, severity: Severity, category: string, evidenceIds: multiset<string>)

  datatype ProjectInputs = ProjectInputs(
    researchTarget: string, domain: string, goal: string, classification: Classification, scenarioId: Option<string>)

  /** What a version covers of a workflow node; the failure modes it addresses are not among it. */
  datatype NodeEntry = NodeEntry(nodeId: string, stageName: string, model: string, prompt: string)

  datatype CriticalContent = CriticalContent(
    inputs: ProjectInputs,
    materials: seq<string>,
    inputVersions: map<string, int>,
    deployment: Option<Deployment>,
    policy: int,
    risk: int,
    evalCases: seq<(string, CaseDigest)>,
    stage1: seq<FailureModeEntry>,
    stage2: seq<NodeEntry>,
    stage3: seq<TestResult>,
    stage4: seq<TriggerMethod>)

  datatype VersionDigest = Unbound | Digest(
    stageVersions: map<Stage, int>, inputVersions: map<string, int>, content: CriticalContent)

  /** Which sentence a judge wrote; the criterion it found violated carries the same name. */
  datatype Rationale =
    | Unjudged | ManualScoring | DryRunOnly | TargetFailed(outcome: ExecutionOutcome, error: string) | EmptyOutput
    | NoExpectedBehavior | NoPassCriteria | PredictedFailure | PredictedPass | NoSemanticJudge
    | Written(text: string) | LabelSet(verdict: Verdict)

  datatype EvalRun = EvalRun(
    runId: string, evalId: string, targetNodeId: Option<string>, mode: RunMode, kind: ExecutionKind,
    outcome: ExecutionOutcome, status: RunStatus, actualOutput: string, verdict: Verdict, judgeMode: JudgeMode,
    judgeReason: Rationale, versionDigest: VersionDigest, caseDigest: CaseDigest, endpoint: string,
    deploymentVersion: string, completedAt: Option<int>, violatedCriteria: seq<Rationale>, errorMessage: string)

  datatype HumanCalibration = HumanCalibration(
    id: string, runId: string, verdict: Verdict, comment: string, reviewer: string, disagreement: string,
    createdAt: int)

  datatype ExperimentStatus = ExpCreated | ExpRunning | ExpCompleted | ExpFailed | ExpCancelled

  datatype EvalExperiment = EvalExperiment(
    id: string, status: ExperimentStatus, mode: RunMode, runIds: seq<string>, createdAt: int, completedAt: Option<int>)

  datatype TreatmentStatus = Planned | InTreatment | TreatmentCompleted | Accepted

  datatype SourceType = FailureModeSource | SafetyFindingSource

  datatype RiskTreatment = RiskTreatment(
    id: string, sourceType: SourceType, sourceId: string, owner: string, plan: string, status: TreatmentStatus,
    reviewNote: string, reviewedBy: string, reviewedAt: Option<int>, digest: VersionDigest,
    createdBy: string, updatedBy: string, updatedAt: int)

  /** What a risk assessment, computed elsewhere, says: its digest and whether the tier is the lowest. */
  datatype RiskView = RiskView(digest: int, lowTier: bool)

  datatype ReleaseContext = ReleaseContext(
    createdBy: string,
    state: WorkflowState,
    inputs: ProjectInputs,
    materials: seq<string>,
    inputVersions: map<string, int>,
    deployment: Option<Deployment>,
    policy: int,
    risk: RiskView,
    stage1: Option<seq<FailureMode>>,
    stage2: Option<seq<WorkflowNode>>,
    stage3: Option<seq<TestResult>>,
    stage4: Option<seq<TriggerMethod>>,
    versions: map<Stage, int>,
    staleKeys: seq<Stage>,
    parserErrors: seq<Stage>,
    actions: seq<HumanAction>,
    findings: seq<SafetyFinding>,
    evidence: seq<EvidenceSource>,
    cases: seq<EvalCase>,
    runs: seq<EvalRun>,
    calibrations: seq<HumanCalibration>,
    experiments: seq<EvalExperiment>,
    treatments: seq<RiskTreatment>)
}
