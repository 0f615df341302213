/**
  Release approval and the release gate: readiness computed twice (checks and blockers), append-only
  decisions whose effective status is recomputed, and the gate a deployment pipeline asks.
 */
module Approval {
  import opened Prelude
  import opened Models
  import opened Lineage
  import opened ReleaseModels
  import opened EvaluationVersion
  import opened RiskTreatments
  import opened ReleaseEvidence

  // ----- readiness -----------------------------------------------------------------

  datatype Code =
    | EvaluationNotCompleted | MissingStageOutput | StaleStage | PendingActions | ParserErrors | OpenSafetyFindings
    | UnverifiedEvidence | TreatmentGap | Evidence(code: BlockerCode)
    | StatusBlocker(reason: ReasonCode)

  datatype ReasonCode =
    | ApprovedReason | NotApplicable | ApprovalNotRequested | ApprovalRejected | ApprovalStale | ApprovalInvalidated
    | PrerequisitesNotMet

  datatype ReleaseBlocker = ReleaseBlocker(code: Code, sourceId: string)

  datatype Checks = Checks(
    evaluationCompleted: bool, noStaleOutputs: bool, noPendingActions: bool, noParserErrors: bool,
    noOpenFindings: bool, verifiedEvidence: bool, treatmentsComplete: bool, deploymentDeclared: bool,
    requiredCasesDefined: bool, batchComplete: bool, realTargetTestsPassed: bool)

  datatype Readiness = Readiness(
    applicable: bool, canApprove: bool, blockers: seq<ReleaseBlocker>, requiredEvalIds: seq<string>, batch: Option<Batch>)

  predicate OutputsPresent(ctx: ReleaseContext)
  {
    ctx.stage1.Some? && ctx.stage2.Some? && ctx.stage3.Some? && ctx.stage4.Some?
  }

  function PendingBlocking(ctx: ReleaseContext): seq<HumanAction>
  {
    Filter(ctx.actions, (a: HumanAction) =>
      a.status == Pending && a.blocking && a.version == VersionById(ctx.versions, a.stageId))
  }

  function OpenRisks(ctx: ReleaseContext): seq<SafetyFinding>
  {
    Filter(ctx.findings, IsOpenRisk)
  }

  predicate IsVerified(evidence: seq<EvidenceSource>, id: string)
  {
    if evidence == [] then false
    else
      var last := evidence[|evidence| - 1];
      if last.id == id then last.verified else IsVerified(evidence[..|evidence| - 1], id)
  }

  function ModeEvidenceBlockers(evidence: seq<EvidenceSource>, m: FailureMode): seq<ReleaseBlocker>
  {
    if !IsSevere(m.severity) then []
    else if m.evidenceIds == [] then [ReleaseBlocker(UnverifiedEvidence, m.id)]
    else
      var bad := Filter(FirstAppearances(m.evidenceIds), id => !IsVerified(evidence, id));
      seq(|bad|, i requires 0 <= i < |bad| => ReleaseBlocker(UnverifiedEvidence, bad[i]))
  }

  function EvidenceGaps(evidence: seq<EvidenceSource>, modes: seq<FailureMode>): seq<ReleaseBlocker>
  {
    if modes == [] then []
    else EvidenceGaps(evidence, modes[..|modes| - 1]) + ModeEvidenceBlockers(evidence, modes[|modes| - 1])
  }

  function OneIf(condition: bool, code: Code): seq<ReleaseBlocker>
  {
    if condition then [ReleaseBlocker(code, "")] else []
  }

  function TreatmentGaps(ctx: ReleaseContext): seq<ReleaseBlocker>
  {
    var gaps := TreatmentBlockers(ctx);
    seq(|gaps|, i requires 0 <= i < |gaps| => ReleaseBlocker(TreatmentGap, gaps[i].requirement.sourceId))
  }

  function FromEvidence(blockers: seq<EvidenceBlocker>): seq<ReleaseBlocker>
  {
    seq(|blockers|, i requires 0 <= i < |blockers| => ReleaseBlocker(Evidence(blockers[i].code), blockers[i].sourceId))
  }

  datatype Progress = Progress(
    complete: bool, outputs: bool, stale: bool, pending: bool, unparsed: bool, openRisks: bool)

  function ProgressOf(ctx: ReleaseContext): Progress
  {
    Progress(ctx.state == Complete, OutputsPresent(ctx), ctx.staleKeys != [], PendingBlocking(ctx) != [],
             ctx.parserErrors != [], OpenRisks(ctx) != [])
  }

  function BlockersOf(p: Progress): seq<ReleaseBlocker>
  {
    (if !p.complete then [ReleaseBlocker(EvaluationNotCompleted, "")] else OneIf(!p.outputs, MissingStageOutput)) +
    OneIf(p.stale, StaleStage) + OneIf(p.pending, PendingActions) + OneIf(p.unparsed, ParserErrors) +
    OneIf(p.openRisks, OpenSafetyFindings)
  }

  function ProgressBlockers(ctx: ReleaseContext): seq<ReleaseBlocker>
  {
    BlockersOf(ProgressOf(ctx))
  }

  function AllBlockers(ctx: ReleaseContext): seq<ReleaseBlocker>
  {
    ProgressBlockers(ctx) + EvidenceGaps(ctx.evidence, Modes(ctx)) + TreatmentGaps(ctx) +
    FromEvidence(BuildReleaseEvidence(ctx, CurrentDigest(ctx)).blockers)
  }

  predicate HasCode(blockers: seq<ReleaseBlocker>, code: Code)
  {
    exists b :: b in blockers && b.code == code
  }

  /** The checks look at the state directly, except three that search the codes of the blockers. */
  function ChecksOf(ctx: ReleaseContext): Checks
  {
    var blockers := AllBlockers(ctx);
    var batch := BuildReleaseEvidence(ctx, CurrentDigest(ctx)).batch;
    Checks(
      ctx.state == Complete && OutputsPresent(ctx) && ctx.staleKeys == [],
      ctx.staleKeys == [],
      PendingBlocking(ctx) == [],
      ctx.parserErrors == [],
      OpenRisks(ctx) == [],
      EvidenceGaps(ctx.evidence, Modes(ctx)) == [],
      TreatmentBlockers(ctx) == [],
      !HasCode(blockers, Evidence(TargetDeploymentCode)),
      !HasCode(blockers, Evidence(RequiredTestCase)),
      batch.Some?,
      !HasCode(blockers, Evidence(RealTargetTest)) && batch.Some?)
  }

  predicate All(c: Checks)
  {
    c.evaluationCompleted && c.noStaleOutputs && c.noPendingActions && c.noParserErrors && c.noOpenFindings &&
    c.verifiedEvidence && c.treatmentsComplete && c.deploymentDeclared && c.requiredCasesDefined &&
    c.batchComplete && c.realTargetTestsPassed
  }

  function BuildReadiness(ctx: ReleaseContext): Readiness
  {
    if !IsBusiness(ctx) then Readiness(false, false, [], [], None)
    else
      Readiness(true, All(ChecksOf(ctx)), AllBlockers(ctx), EvalIds(RequiredCases(ctx)),
                BuildReleaseEvidence(ctx, CurrentDigest(ctx)).batch)
  }

  lemma EvidenceBlockersAgree(ctx: ReleaseContext)
    ensures var e := BuildReleaseEvidence(ctx, CurrentDigest(ctx));
      e.blockers == [] <==>
        e.batch.Some? && !HasCode(FromEvidence(e.blockers), Evidence(TargetDeploymentCode))
        && !HasCode(FromEvidence(e.blockers), Evidence(RequiredTestCase))
  {
    var digest := CurrentDigest(ctx);
    var cases, missing := RequiredCases(ctx), MissingNodeIds(ctx);
    var required := SortedUnique(EvalIds(cases));
    var s := SelectBatch(ctx, required, digest);
    var _ := SelectionIsSoundCompleteAndLatest(ctx, required, digest);
    var e := BuildReleaseEvidence(ctx, digest);
    var all := FromEvidence(e.blockers);
    if !DeploymentDeclared(ctx) {
      assert all[0] in all && all[0].code == Evidence(TargetDeploymentCode);
    } else if missing != [] {
      assert all[0] in all && all[0].code == Evidence(RequiredTestCase);
    } else {
      assert e.blockers == s.blockers;
    }
  }

  /** The two computations agree: every check passes exactly when there is no blocker. */
  lemma ChecksAgreeWithBlockers(ctx: ReleaseContext)
    ensures All(ChecksOf(ctx)) <==> AllBlockers(ctx) == []
  {
    EvidenceBlockersAgree(ctx);
    var e := BuildReleaseEvidence(ctx, CurrentDigest(ctx));
    var blockers, evidence := AllBlockers(ctx), FromEvidence(e.blockers);
    assert AllBlockers(ctx) == [] <==>
      |ProgressBlockers(ctx)| == 0 && |EvidenceGaps(ctx.evidence, Modes(ctx))| == 0 && |TreatmentGaps(ctx)| == 0 && |evidence| == 0;
    forall b | b in evidence ensures b in blockers {}
    assert HasCode(evidence, Evidence(TargetDeploymentCode)) ==> HasCode(blockers, Evidence(TargetDeploymentCode));
    assert HasCode(evidence, Evidence(RequiredTestCase)) ==> HasCode(blockers, Evidence(RequiredTestCase));
  }

  /** For every business session approval is possible exactly when the blocker list is empty. */
  lemma ReadinessAgrees(ctx: ReleaseContext)
    ensures var r := BuildReadiness(ctx);
      && (r.applicable <==> IsBusiness(ctx))
      && (r.applicable ==> (r.canApprove <==> r.blockers == []))
      && (r.canApprove ==> r.applicable && r.batch.Some?)
  {
    ChecksAgreeWithBlockers(ctx);
  }

  // ----- decisions and their effective status --------------------------------------------

  datatype Stored = ApprovedRecord | RejectedRecord

  datatype ProjectApproval = ProjectApproval(
    id: string, status: Stored, digest: VersionDigest, evidence: Snapshot, prerequisites: Readiness,
    decidedBy: string, decidedRole: string, note: string, createdAt: int)

  datatype Session = Session(ctx: ReleaseContext, approvals: seq<ProjectApproval>)

  datatype Effective = NotRequested | Rejected | Outdated | Invalidated | Approved

  function LatestApproval(approvals: seq<ProjectApproval>): Option<ProjectApproval>
  {
    if approvals == [] then None else Some(Newest(approvals, (a: ProjectApproval) => a.createdAt))
  }

  function CurrentEvidence(ctx: ReleaseContext): Snapshot
  {
    var r := BuildReadiness(ctx);
    SnapshotOf(ctx, if r.batch.Some? then r.batch.value.runIds else [], r.requiredEvalIds, CurrentDigest(ctx))
  }

  /** The status a stored decision has, given what is current: the version, the evidence and the readiness. */
  function StatusFrom(a: Option<ProjectApproval>, digest: VersionDigest, evidence: Snapshot, canApprove: bool): Effective
  {
    if a.None? then NotRequested
    else if a.value.status == RejectedRecord then Rejected
    else if a.value.digest != digest then Outdated
    else if a.value.evidence == NoSnapshot then Invalidated
    else if a.value.evidence != evidence then Invalidated
    else if !canApprove then Invalidated
    else Approved
  }

  function EffectiveStatus(ctx: ReleaseContext, a: Option<ProjectApproval>): Effective
  {
    StatusFrom(a, CurrentDigest(ctx), CurrentEvidence(ctx), BuildReadiness(ctx).canApprove)
  }

  datatype Decision = ApproveRelease | RejectRelease | OtherDecision

  datatype Request = Request(decision: Decision, note: string, actor: string, role: string)

  datatype ApprovalError =
    | NotABusinessSession | UnsupportedDecision | RoleNotAdmin | ReviewerMissing | CreatorMissing | SelfApproval
    | PrerequisitesMissing(blockers: seq<ReleaseBlocker>)

  function CheckRequest(ctx: ReleaseContext, r: Request): Option<ApprovalError>
  {
    if !IsBusiness(ctx) then Some(NotABusinessSession)
    else if r.decision == OtherDecision then Some(UnsupportedDecision)
    else if r.role != "admin" then Some(RoleNotAdmin)
    else if Strip(r.actor) == "" then Some(ReviewerMissing)
    else if Strip(ctx.createdBy) == "" then Some(CreatorMissing)
    else if Strip(r.actor) == Strip(ctx.createdBy) then Some(SelfApproval)
    else None
  }

  datatype Reply = Reply(session: Session, approval: ProjectApproval, repeated: bool)

  function NewRecord(ctx: ReleaseContext, r: Request, status: Stored, newId: string, now: int): ProjectApproval
  {
    ProjectApproval(newId, status, CurrentDigest(ctx), CurrentEvidence(ctx), BuildReadiness(ctx), Strip(r.actor), r.role,
                    r.note, now)
  }

  predicate Grants(latest: Option<ProjectApproval>, digest: VersionDigest, evidence: Snapshot)
  {
    latest.Some? && latest.value.status == ApprovedRecord && latest.value.digest == digest && latest.value.evidence == evidence
  }

  function Append(s: Session, a: ProjectApproval): Reply
  {
    Reply(s.(approvals := s.approvals + [a]), a, false)
  }

  function RequestApproval(s: Session, r: Request, newId: string, now: int): Result<Reply, ApprovalError>
  {
    match CheckRequest(s.ctx, r)
    case Some(e) => Err(e)
    case None =>
      if r.decision == RejectRelease then Ok(Append(s, NewRecord(s.ctx, r, RejectedRecord, newId, now)))
      else if !BuildReadiness(s.ctx).canApprove then Err(PrerequisitesMissing(BuildReadiness(s.ctx).blockers))
      else if Grants(LatestApproval(s.approvals), CurrentDigest(s.ctx), CurrentEvidence(s.ctx)) then
        Ok(Reply(s, LatestApproval(s.approvals).value, true))
      else Ok(Append(s, NewRecord(s.ctx, r, ApprovedRecord, newId, now)))
  }

  // ----- the gate -----------------------------------------------------------------------------

  datatype GateDecision = GateDecision(
    allow: bool, reason: ReasonCode, status: Effective, approvalId: string, blockers: seq<ReleaseBlocker>)

  function ReasonFor(status: Effective): ReasonCode
  {
    match status
    case Approved => ApprovedReason
    case NotRequested => ApprovalNotRequested
    case Rejected => ApprovalRejected
    case Outdated => ApprovalStale
    case Invalidated => ApprovalInvalidated
  }

  function Decide(readiness: Readiness, latest: Option<ProjectApproval>, status: Effective): GateDecision
  {
    if !readiness.applicable then
      GateDecision(false, NotApplicable, NotRequested, "", [ReleaseBlocker(StatusBlocker(NotApplicable), "")])
    else
      var id := if latest.Some? then latest.value.id else "";
      var reason := if status == Approved && !readiness.canApprove then PrerequisitesNotMet else ReasonFor(status);
      var blockers := if reason != ApprovedReason && readiness.blockers == []
                      then [ReleaseBlocker(StatusBlocker(reason), id)] else readiness.blockers;
      GateDecision(reason == ApprovedReason && readiness.canApprove, reason, status, id, blockers)
  }

  function EvaluateGate(s: Session): GateDecision
  {
    var latest := LatestApproval(s.approvals);
    Decide(BuildReadiness(s.ctx), latest, EffectiveStatus(s.ctx, latest))
  }

  lemma DecisionIsExact(readiness: Readiness, latest: Option<ProjectApproval>, digest: VersionDigest, evidence: Snapshot)
    requires readiness.applicable ==> (readiness.canApprove <==> readiness.blockers == [])
    ensures var status := StatusFrom(latest, digest, evidence, readiness.canApprove);
      var g := Decide(readiness, latest, status);
      && (g.allow <==> readiness.applicable && status == Approved)
      && (g.allow <==> g.blockers == [])
      && (g.allow <==> g.reason == ApprovedReason)
      && g.reason != PrerequisitesNotMet
  {
  }

  /**
    The gate allows exactly when the latest decision is effectively approved; it allows with no blocker and
    blocks with at least one; and the reason "prerequisites not met" cannot occur.
   */
  lemma GateIsExact(s: Session)
    ensures var g := EvaluateGate(s);
      && (g.allow <==> IsBusiness(s.ctx) && EffectiveStatus(s.ctx, LatestApproval(s.approvals)) == Approved)
      && (g.allow <==> g.blockers == [])
      && (g.allow <==> g.reason == ApprovedReason)
      && g.reason != PrerequisitesNotMet
  {
    ReadinessAgrees(s.ctx);
    DecisionIsExact(BuildReadiness(s.ctx), LatestApproval(s.approvals), CurrentDigest(s.ctx), CurrentEvidence(s.ctx));
  }

  // ----- granting --------------------------------------------------------------------------------

  /** Time never runs backwards, so a new record is never older than a stored one. */
  predicate ClockAt(approvals: seq<ProjectApproval>, now: int)
  {
    forall a :: a in approvals ==> a.createdAt <= now
  }

  lemma AppendedIsLatest(s: Session, a: ProjectApproval)
    requires ClockAt(s.approvals, a.createdAt)
    ensures LatestApproval(Append(s, a).session.approvals) == Some(a)
  {
    NewestAppend(s.approvals, a, (x: ProjectApproval) => x.createdAt);
  }

  /** What a successful approval leaves behind: the latest decision grants the current version and evidence. */
  lemma ApprovalGrants(s: Session, r: Request, newId: string, now: int)
    requires ClockAt(s.approvals, now)
    requires r.decision == ApproveRelease && RequestApproval(s, r, newId, now).Ok?
    ensures var reply := RequestApproval(s, r, newId, now).value;
      && reply.session.ctx == s.ctx
      && LatestApproval(reply.session.approvals) == Some(reply.approval)
      && Grants(Some(reply.approval), CurrentDigest(s.ctx), CurrentEvidence(s.ctx))
      && BuildReadiness(s.ctx).canApprove
  {
    var a := NewRecord(s.ctx, r, ApprovedRecord, newId, now);
    AppendedIsLatest(s, a);
  }

  /** A successful approval is effective at once, and asking again changes nothing. */
  lemma GrantIsEffectiveAndIdempotent(s: Session, r: Request, newId: string, now: int, r': Request, newId': string, now': int)
    requires ClockAt(s.approvals, now)
    requires r.decision == ApproveRelease && RequestApproval(s, r, newId, now).Ok?
    requires r'.decision == ApproveRelease && CheckRequest(s.ctx, r').None?
    ensures var reply := RequestApproval(s, r, newId, now).value;
      && EvaluateGate(reply.session).allow && EvaluateGate(reply.session).approvalId == reply.approval.id
      && RequestApproval(reply.session, r', newId', now') == Ok(Reply(reply.session, reply.approval, true))
  {
    ApprovalGrants(s, r, newId, now);
    GrantedIsAllowed(RequestApproval(s, r, newId, now).value.session, RequestApproval(s, r, newId, now).value.approval);
  }

  lemma GrantsAllow(readiness: Readiness, a: ProjectApproval, digest: VersionDigest, evidence: Snapshot)
    requires Grants(Some(a), digest, evidence) && evidence != NoSnapshot && readiness.applicable && readiness.canApprove
    ensures var g := Decide(readiness, Some(a), StatusFrom(Some(a), digest, evidence, readiness.canApprove));
      g.allow && g.approvalId == a.id
  {
  }

  lemma GrantedIsAllowed(s: Session, a: ProjectApproval)
    requires LatestApproval(s.approvals) == Some(a)
    requires Grants(Some(a), CurrentDigest(s.ctx), CurrentEvidence(s.ctx)) && BuildReadiness(s.ctx).canApprove
    ensures EvaluateGate(s).allow && EvaluateGate(s).approvalId == a.id
  {
    ReadinessAgrees(s.ctx);
    EvidenceIsBound(s.ctx);
    GrantsAllow(BuildReadiness(s.ctx), a, CurrentDigest(s.ctx), CurrentEvidence(s.ctx));
  }

  lemma EvidenceIsBound(ctx: ReleaseContext)
    ensures CurrentEvidence(ctx) != NoSnapshot
  {
  }

  /** A later rejection blocks, whatever was approved before. */
  lemma RejectionBlocks(s: Session, r: Request, newId: string, now: int)
    requires ClockAt(s.approvals, now)
    requires r.decision == RejectRelease && RequestApproval(s, r, newId, now).Ok?
    ensures var g := EvaluateGate(RequestApproval(s, r, newId, now).value.session);
      !g.allow && g.reason == ApprovalRejected && g.approvalId == newId
  {
    var a := NewRecord(s.ctx, r, RejectedRecord, newId, now);
    AppendedIsLatest(s, a);
    RejectedIsBlocked(Append(s, a).session, a);
  }

  lemma RejectedIsBlocked(s: Session, a: ProjectApproval)
    requires LatestApproval(s.approvals) == Some(a) && a.status == RejectedRecord && IsBusiness(s.ctx)
    ensures !EvaluateGate(s).allow && EvaluateGate(s).reason == ApprovalRejected && EvaluateGate(s).approvalId == a.id
  {
    ReadinessAgrees(s.ctx);
  }

  /** The decision rests on the approvals, the version, the bound evidence and readiness, and on nothing else. */
  lemma GateReadsOnly(s: Session, q: Session)
    requires q.approvals == s.approvals
    requires CurrentDigest(q.ctx) == CurrentDigest(s.ctx) && CurrentEvidence(q.ctx) == CurrentEvidence(s.ctx)
    requires BuildReadiness(q.ctx) == BuildReadiness(s.ctx)
    ensures EvaluateGate(q) == EvaluateGate(s)
  {
  }

  // ----- stability ----------------------------------------------------------------------------------

  function AddWork(ctx: ReleaseContext, runs: seq<EvalRun>, experiments: seq<EvalExperiment>): ReleaseContext
  {
    ctx.(runs := ctx.runs + runs, experiments := ctx.experiments + experiments)
  }

  /** New runs that no experiment lists yet, and experiments that are not completed. */
  ghost predicate IsUnfinishedWork(ctx: ReleaseContext, runs: seq<EvalRun>, experiments: seq<EvalExperiment>)
  {
    && (forall r, e :: r in runs && e in ctx.experiments ==> r.runId !in e.runIds)
    && (forall e :: e in experiments ==> e.status != ExpCompleted)
  }

  lemma NoneKept<T>(items: seq<T>, more: seq<T>, keep: T -> bool)
    requires forall x | x in more :: !keep(x)
    ensures Filter(items + more, keep) == Filter(items, keep)
  {
    FilterAppend(items, more, keep);
    EmptyIffNone(more, keep);
  }

  lemma WorkKeepsJudgement(ctx: ReleaseContext, runs: seq<EvalRun>, experiments: seq<EvalExperiment>,
                           e: EvalExperiment, required: seq<string>, digest: VersionDigest)
    requires IsUnfinishedWork(ctx, runs, experiments) && e in ctx.experiments
    ensures RelevantRuns(AddWork(ctx, runs, experiments), e, required) == RelevantRuns(ctx, e, required)
    ensures Judge(AddWork(ctx, runs, experiments), e, required, digest) == Judge(ctx, e, required, digest)
  {
    var after := AddWork(ctx, runs, experiments);
    NoneKept(ctx.runs, runs, (r: EvalRun) => r.runId in e.runIds);
    var relevant := RelevantRuns(ctx, e, required);
    assert RelevantRuns(after, e, required) == relevant;
    SameReasons(ctx, after, relevant, digest);
    SameMissing(ctx, after, MissingCases(relevant, required));
  }

  lemma {:induction false} SameMissing(ctx: ReleaseContext, after: ReleaseContext, missing: seq<string>)
    requires after.cases == ctx.cases
    ensures MissingBlockers(after, missing) == MissingBlockers(ctx, missing)
  {
    if missing != [] { SameMissing(ctx, after, missing[..|missing| - 1]); }
  }

  lemma SameReasons(ctx: ReleaseContext, after: ReleaseContext, runs: seq<EvalRun>, digest: VersionDigest)
    requires after.cases == ctx.cases && after.calibrations == ctx.calibrations && after.deployment == ctx.deployment
    ensures InvalidRuns(after, runs, digest) == InvalidRuns(ctx, runs, digest)
    ensures ValidRuns(after, runs, digest) == ValidRuns(ctx, runs, digest)
    ensures RunBlockers(after, InvalidRuns(ctx, runs, digest), digest) == RunBlockers(ctx, InvalidRuns(ctx, runs, digest), digest)
  {
    forall r: EvalRun ensures ReasonsOf(after, r, digest) == ReasonsOf(ctx, r, digest) {}
    SameFilter(runs, (r: EvalRun) => ReasonsOf(ctx, r, digest) != [], (r: EvalRun) => ReasonsOf(after, r, digest) != []);
    SameFilter(runs, (r: EvalRun) => ReasonsOf(ctx, r, digest) == [], (r: EvalRun) => ReasonsOf(after, r, digest) == []);
    SameRunBlockers(ctx, after, InvalidRuns(ctx, runs, digest), digest);
  }

  lemma {:induction false} SameFilter<T>(items: seq<T>, p: T -> bool, q: T -> bool)
    requires forall x | x in items :: p(x) == q(x)
    ensures Filter(items, p) == Filter(items, q)
  {
    if items != [] { SameFilter(items[1..], p, q); }
  }

  lemma {:induction false} SameRunBlockers(ctx: ReleaseContext, after: ReleaseContext, runs: seq<EvalRun>, digest: VersionDigest)
    requires forall r: EvalRun :: ReasonsOf(after, r, digest) == ReasonsOf(ctx, r, digest)
    ensures RunBlockers(after, runs, digest) == RunBlockers(ctx, runs, digest)
  {
    if runs != [] { SameRunBlockers(ctx, after, runs[..|runs| - 1], digest); }
  }

  lemma WorkKeepsSelection(ctx: ReleaseContext, runs: seq<EvalRun>, experiments: seq<EvalExperiment>,
                           required: seq<string>, digest: VersionDigest)
    requires IsUnfinishedWork(ctx, runs, experiments)
    ensures SelectBatch(AddWork(ctx, runs, experiments), required, digest) == SelectBatch(ctx, required, digest)
  {
    var after := AddWork(ctx, runs, experiments);
    NoneKept(ctx.experiments, experiments, IsCandidate);
    var es := Candidates(ctx);
    CandidatesAre(ctx);
    forall i | 0 <= i < |es| ensures Judge(after, es[i], required, digest) == Judge(ctx, es[i], required, digest) {
      assert es[i] in es;
      WorkKeepsJudgement(ctx, runs, experiments, es[i], required, digest);
    }
    assert JudgeAll(after, es, required, digest) == JudgeAll(ctx, es, required, digest);
  }

  lemma WorkKeepsRequiredCases(ctx: ReleaseContext, runs: seq<EvalRun>, experiments: seq<EvalExperiment>)
    ensures var after := AddWork(ctx, runs, experiments);
      RequiredCases(after) == RequiredCases(ctx) && MissingNodeIds(after) == MissingNodeIds(ctx)
  {
    var after := AddWork(ctx, runs, experiments);
    SameFilter(Nodes(ctx), n => IsRequiredNode(ctx, n), n => IsRequiredNode(after, n));
    assert RequiredNodeIds(after) == RequiredNodeIds(ctx);
  }

  lemma WorkKeepsBundle(ctx: ReleaseContext, runs: seq<EvalRun>, experiments: seq<EvalExperiment>, digest: VersionDigest)
    requires IsUnfinishedWork(ctx, runs, experiments)
    ensures BuildReleaseEvidence(AddWork(ctx, runs, experiments), digest) == BuildReleaseEvidence(ctx, digest)
  {
    WorkKeepsRequiredCases(ctx, runs, experiments);
    WorkKeepsSelection(ctx, runs, experiments, SortedUnique(EvalIds(RequiredCases(ctx))), digest);
  }

  lemma WorkKeepsProgress(ctx: ReleaseContext, runs: seq<EvalRun>, experiments: seq<EvalExperiment>)
    ensures var after := AddWork(ctx, runs, experiments);
      PendingBlocking(after) == PendingBlocking(ctx) && ProgressBlockers(after) == ProgressBlockers(ctx)
  {
    var after := AddWork(ctx, runs, experiments);
    SameFilter(ctx.actions,
      (a: HumanAction) => a.status == Pending && a.blocking && a.version == VersionById(ctx.versions, a.stageId),
      (a: HumanAction) => a.status == Pending && a.blocking && a.version == VersionById(after.versions, a.stageId));
  }

  lemma WorkKeepsDigest(ctx: ReleaseContext, runs: seq<EvalRun>, experiments: seq<EvalExperiment>)
    ensures CurrentDigest(AddWork(ctx, runs, experiments)) == CurrentDigest(ctx)
    ensures TreatmentBlockers(AddWork(ctx, runs, experiments)) == TreatmentBlockers(ctx)
  {
  }

  lemma WorkKeepsBlockers(ctx: ReleaseContext, runs: seq<EvalRun>, experiments: seq<EvalExperiment>)
    requires IsUnfinishedWork(ctx, runs, experiments)
    ensures AllBlockers(AddWork(ctx, runs, experiments)) == AllBlockers(ctx)
  {
    WorkKeepsDigest(ctx, runs, experiments);
    WorkKeepsBundle(ctx, runs, experiments, CurrentDigest(ctx));
    WorkKeepsProgress(ctx, runs, experiments);
  }

  lemma WorkKeepsReadiness(ctx: ReleaseContext, runs: seq<EvalRun>, experiments: seq<EvalExperiment>)
    requires IsUnfinishedWork(ctx, runs, experiments)
    ensures BuildReadiness(AddWork(ctx, runs, experiments)) == BuildReadiness(ctx)
    ensures CurrentDigest(AddWork(ctx, runs, experiments)) == CurrentDigest(ctx)
  {
    var after := AddWork(ctx, runs, experiments);
    WorkKeepsDigest(ctx, runs, experiments);
    WorkKeepsBlockers(ctx, runs, experiments);
    WorkKeepsBundle(ctx, runs, experiments, CurrentDigest(ctx));
    WorkKeepsProgress(ctx, runs, experiments);
    WorkKeepsRequiredCases(ctx, runs, experiments);
    assert ChecksOf(after) == ChecksOf(ctx);
  }

  lemma WorkKeepsEvidence(ctx: ReleaseContext, runs: seq<EvalRun>, experiments: seq<EvalExperiment>)
    requires IsUnfinishedWork(ctx, runs, experiments)
    ensures CurrentEvidence(AddWork(ctx, runs, experiments)) == CurrentEvidence(ctx)
  {
    var after := AddWork(ctx, runs, experiments);
    WorkKeepsReadiness(ctx, runs, experiments);
    var r := BuildReadiness(ctx);
    var runIds := if r.batch.Some? then r.batch.value.runIds else [];
    forall x | x in runs ensures x.runId !in runIds {
      if x.runId in runIds {
        var e := BatchRunIsListed(ctx, x.runId);
        assert false;
      }
    }
    NoneKept(ctx.runs, runs, (x: EvalRun) => x.runId in runIds);
    assert TreatmentEntries(after) == TreatmentEntries(ctx);
  }

  /** Every run of the release batch is listed by an experiment. */
  lemma BatchRunIsListed(ctx: ReleaseContext, id: string) returns (e: EvalExperiment)
    requires BuildReadiness(ctx).batch.Some? && id in BuildReadiness(ctx).batch.value.runIds
    ensures e in ctx.experiments && id in e.runIds
  {
    var required := SortedUnique(EvalIds(RequiredCases(ctx)));
    var chosen := SelectionIsSoundCompleteAndLatest(ctx, required, CurrentDigest(ctx));
    e := chosen.value;
    var relevant := RelevantRuns(ctx, e, required);
    assert BuildReadiness(ctx).batch.value.runIds == RunIds(relevant);
    var i :| 0 <= i < |RunIds(relevant)| && RunIds(relevant)[i] == id;
    RelevantRunsAre(ctx, e, required, relevant[i]);
    assert relevant[i] in relevant;
  }

  /**
    A granted release stays allowed while new evaluation work is under way: runs that no experiment lists yet and
    experiments that are not completed change neither version, batch, readiness nor evidence.
   */
  lemma AllowSurvivesUnfinishedWork(s: Session, runs: seq<EvalRun>, experiments: seq<EvalExperiment>)
    requires IsUnfinishedWork(s.ctx, runs, experiments)
    ensures EvaluateGate(s.(ctx := AddWork(s.ctx, runs, experiments))) == EvaluateGate(s)
  {
    WorkKeepsReadiness(s.ctx, runs, experiments);
    WorkKeepsEvidence(s.ctx, runs, experiments);
    GateReadsOnly(s, s.(ctx := AddWork(s.ctx, runs, experiments)));
  }

  // ----- what every stored decision has met ----------------------------------------------------------

  datatype ApprovalStep = Ask(request: Request, newId: string, now: int) | OtherServices(next: ReleaseContext)

  function DoApproval(s: Session, step: ApprovalStep): Session
  {
    match step
    case OtherServices(next) => s.(ctx := next.(createdBy := s.ctx.createdBy))
    case Ask(request, newId, now) =>
      (match RequestApproval(s, request, newId, now) case Ok(reply) => reply.session case Err(_) => s)
  }

  function RunApprovals(ctx: ReleaseContext, steps: seq<ApprovalStep>): Session
  {
    if steps == [] then Session(ctx, []) else DoApproval(RunApprovals(ctx, steps[..|steps| - 1]), steps[|steps| - 1])
  }

  /** An admin who is not the creator decided; and an approval had no open prerequisite and bound its evidence. */
  ghost predicate IsSound(a: ProjectApproval, createdBy: string)
  {
    && a.decidedRole == "admin" && a.decidedBy != "" && a.decidedBy != Strip(createdBy)
    && (a.status == ApprovedRecord ==> a.prerequisites.canApprove && a.prerequisites.blockers == [] && a.evidence != NoSnapshot)
  }

  lemma NewRecordIsSound(s: Session, r: Request, status: Stored, newId: string, now: int)
    requires CheckRequest(s.ctx, r).None?
    requires status == ApprovedRecord ==> BuildReadiness(s.ctx).canApprove
    ensures IsSound(NewRecord(s.ctx, r, status, newId, now), s.ctx.createdBy)
  {
    ReadinessAgrees(s.ctx);
    EvidenceIsBound(s.ctx);
  }

  lemma {:induction false} EveryDecisionIsSound(ctx: ReleaseContext, steps: seq<ApprovalStep>)
    ensures var s := RunApprovals(ctx, steps);
      && s.ctx.createdBy == ctx.createdBy
      && AllSound(s.approvals, ctx.createdBy)
  {
    if steps != [] {
      EveryDecisionIsSound(ctx, steps[..|steps| - 1]);
      StepKeepsDecisionsSound(RunApprovals(ctx, steps[..|steps| - 1]), steps[|steps| - 1]);
    }
  }

  /**
    A request is answered exactly if it is about a business session, approves or rejects, comes from a named admin who
    is not the named creator, and, for an approval, nothing is missing.
   */
  lemma RequestIsAnsweredIff(s: Session, r: Request, newId: string, now: int)
    ensures RequestApproval(s, r, newId, now).Ok? <==>
      && s.ctx.inputs.classification != PublicDemo && r.decision in {ApproveRelease, RejectRelease} && r.role == "admin"
      && Strip(r.actor) != "" && Strip(s.ctx.createdBy) != "" && Strip(r.actor) != Strip(s.ctx.createdBy)
      && (r.decision == ApproveRelease ==> BuildReadiness(s.ctx).canApprove)
    ensures RequestApproval(s, r, newId, now).Ok? ==>
      var reply := RequestApproval(s, r, newId, now).value;
      && (r.decision == RejectRelease ==> !reply.repeated)
      && (reply.repeated ==> reply.session == s && LatestApproval(s.approvals) == Some(reply.approval))
      && (!reply.repeated ==>
            && reply.session == s.(approvals := s.approvals + [reply.approval])
            && reply.approval.status == (if r.decision == RejectRelease then RejectedRecord else ApprovedRecord)
            && reply.approval.id == newId && reply.approval.createdAt == now && reply.approval.note == r.note
            && reply.approval.decidedBy == Strip(r.actor) && reply.approval.decidedRole == r.role
            && reply.approval.digest == CurrentDigest(s.ctx) && reply.approval.evidence == CurrentEvidence(s.ctx)
            && reply.approval.prerequisites == BuildReadiness(s.ctx))
  {
  }

  /** A request stores at most one new decision. */
  lemma RequestOutcome(s: Session, r: Request, newId: string, now: int)
    requires RequestApproval(s, r, newId, now).Ok?
    ensures var reply := RequestApproval(s, r, newId, now).value;
      || reply.session == s
      || (reply == Append(s, NewRecord(s.ctx, r, RejectedRecord, newId, now)))
      || (reply == Append(s, NewRecord(s.ctx, r, ApprovedRecord, newId, now)) && BuildReadiness(s.ctx).canApprove)
  {
  }

  ghost predicate AllSound(approvals: seq<ProjectApproval>, createdBy: string)
  {
    forall a :: a in approvals ==> IsSound(a, createdBy)
  }

  lemma AppendSound(approvals: seq<ProjectApproval>, a: ProjectApproval, createdBy: string)
    requires AllSound(approvals, createdBy) && IsSound(a, createdBy)
    ensures AllSound(approvals + [a], createdBy)
  {
  }

  lemma AskKeepsDecisionsSound(s: Session, r: Request, newId: string, now: int)
    requires AllSound(s.approvals, s.ctx.createdBy)
    requires CheckRequest(s.ctx, r).None?
    ensures AllSound(s.approvals + [NewRecord(s.ctx, r, RejectedRecord, newId, now)], s.ctx.createdBy)
    ensures BuildReadiness(s.ctx).canApprove ==>
      AllSound(s.approvals + [NewRecord(s.ctx, r, ApprovedRecord, newId, now)], s.ctx.createdBy)
  {
    NewRecordIsSound(s, r, RejectedRecord, newId, now);
    AppendSound(s.approvals, NewRecord(s.ctx, r, RejectedRecord, newId, now), s.ctx.createdBy);
    if BuildReadiness(s.ctx).canApprove {
      NewRecordIsSound(s, r, ApprovedRecord, newId, now);
      AppendSound(s.approvals, NewRecord(s.ctx, r, ApprovedRecord, newId, now), s.ctx.createdBy);
    }
  }

  lemma StepKeepsDecisionsSound(s: Session, step: ApprovalStep)
    requires AllSound(s.approvals, s.ctx.createdBy)
    ensures DoApproval(s, step).ctx.createdBy == s.ctx.createdBy
    ensures AllSound(DoApproval(s, step).approvals, s.ctx.createdBy)
  {
    match step
    case OtherServices(_) =>
    case Ask(request, newId, now) =>
      if RequestApproval(s, request, newId, now).Ok? {
        RequestOutcome(s, request, newId, now);
        AskKeepsDecisionsSound(s, request, newId, now);
      }
  }

  /** The record came from this step, asked of the session as it then was; an approval when it was possible. */
  ghost predicate CameFrom(a: ProjectApproval, s: Session, step: ApprovalStep)
  {
    && step.Ask? && CheckRequest(s.ctx, step.request).None?
    && a == NewRecord(s.ctx, step.request, a.status, step.newId, step.now)
    && (a.status == ApprovedRecord <==> step.request.decision == ApproveRelease)
    && (a.status == ApprovedRecord ==> BuildReadiness(s.ctx).canApprove)
  }

  lemma AppendedIsTheNew<T>(items: seq<T>, x: T, a: T)
    requires a in items + [x] && a !in items
    ensures a == x
  {
  }

  lemma NewDecisionCameFrom(s: Session, step: ApprovalStep, a: ProjectApproval)
    requires a in DoApproval(s, step).approvals && a !in s.approvals
    ensures CameFrom(a, s, step)
  {
    if step.Ask? && CheckRequest(s.ctx, step.request).None? {
      var status := if step.request.decision == RejectRelease then RejectedRecord else ApprovedRecord;
      var made := NewRecord(s.ctx, step.request, status, step.newId, step.now);
      if DoApproval(s, step).approvals == s.approvals + [made] { AppendedIsTheNew(s.approvals, made, a); }
    }
  }

  lemma {:induction false} DecisionCameFrom(ctx: ReleaseContext, steps: seq<ApprovalStep>, a: ProjectApproval) returns (n: nat)
    requires a in RunApprovals(ctx, steps).approvals
    ensures n < |steps| && CameFrom(a, RunApprovals(ctx, steps[..n]), steps[n])
  {
    n := |steps| - 1;
    var s := RunApprovals(ctx, steps[..n]);
    if a in s.approvals {
      var m := DecisionCameFrom(ctx, steps[..n], a);
      assert steps[..n][..m] == steps[..m];
      n := m;
    } else {
      NewDecisionCameFrom(s, steps[n], a);
    }
  }

  lemma CameFromIsBound(a: ProjectApproval, s: Session, step: ApprovalStep)
    requires CameFrom(a, s, step)
    ensures a.digest == CurrentDigest(s.ctx) && a.evidence == CurrentEvidence(s.ctx) && a.prerequisites == BuildReadiness(s.ctx)
    ensures a.status == ApprovedRecord ==> BuildReadiness(s.ctx).canApprove && BuildReadiness(s.ctx).blockers == []
  {
    ReadinessAgrees(s.ctx);
  }

  /**
    Every stored decision was asked for at some moment of the history, and records that moment: an approval was
    possible then, and it is bound to the version, the evidence and the readiness the session had then.
   */
  lemma EveryDecisionWasEarned(ctx: ReleaseContext, steps: seq<ApprovalStep>, a: ProjectApproval) returns (n: nat)
    requires a in RunApprovals(ctx, steps).approvals
    ensures n < |steps| && CameFrom(a, RunApprovals(ctx, steps[..n]), steps[n])
    ensures var at := RunApprovals(ctx, steps[..n]).ctx;
      && a.digest == CurrentDigest(at) && a.evidence == CurrentEvidence(at) && a.prerequisites == BuildReadiness(at)
      && (a.status == ApprovedRecord ==> BuildReadiness(at).canApprove && BuildReadiness(at).blockers == [])
  {
    n := DecisionCameFrom(ctx, steps, a);
    CameFromIsBound(a, RunApprovals(ctx, steps[..n]), steps[n]);
  }

  /**
    Once a counted change follows an approval, at once or after any other changes, that approval record is never
    effective again, whatever later steps restore.
   */
  lemma ApprovalIsNeverRevived(ctx: ReleaseContext, a: ProjectApproval, before: seq<VersionStep>, s: VersionStep,
                               later: seq<VersionStep>)
    requires a.digest == CurrentDigest(ctx) && IsCounted(ApplyVersions(ctx, before), s)
    ensures EffectiveStatus(ApplyVersions(ApplyVersion(ApplyVersions(ctx, before), s), later), Some(a)) in {Rejected, Outdated}
  {
    CountedStepIsNeverUndone(ctx, before, s, later);
    var now := ApplyVersions(ApplyVersion(ApplyVersions(ctx, before), s), later);
    assert StatusFrom(Some(a), CurrentDigest(now), CurrentEvidence(now), BuildReadiness(now).canApprove) in {Rejected, Outdated};
  }

  // ----- the services --------------------------------------------------------------------------------

  class ApprovalService {
    var ctx: ReleaseContext
    var projectApprovals: seq<ProjectApproval>

    constructor (ctx: ReleaseContext)
      ensures View() == Session(ctx, [])
    {
      this.ctx, projectApprovals := ctx, [];
    }

    function View(): Session
      reads this
    {
      Session(ctx, projectApprovals)
    }

    method BuildReleaseReadiness() returns (r: Readiness)
      ensures r == BuildReadiness(ctx)
      ensures r.canApprove ==> r.blockers == []
    {
      ReadinessAgrees(ctx);
      if !IsBusiness(ctx) { return Readiness(false, false, [], [], None); }
      var digest := CurrentDigest(ctx);
      var progress := CollectProgressBlockers(ProgressOf(ctx));
      var gaps := EvidenceGaps(ctx.evidence, Modes(ctx));
      var evidence := BuildReleaseEvidence(ctx, digest);
      var blockers := progress + gaps + TreatmentGaps(ctx) + FromEvidence(evidence.blockers);
      r := Readiness(true, All(ChecksOf(ctx)), blockers, EvalIds(evidence.requiredCases), evidence.batch);
    }

    static method CollectProgressBlockers(p: Progress) returns (blockers: seq<ReleaseBlocker>)
      ensures blockers == BlockersOf(p)
    {
      blockers := [];
      if !p.complete {
        blockers := [ReleaseBlocker(EvaluationNotCompleted, "")];
      } else if !p.outputs {
        blockers := [ReleaseBlocker(MissingStageOutput, "")];
      }
      if p.stale { blockers := blockers + [ReleaseBlocker(StaleStage, "")]; }
      if p.pending { blockers := blockers + [ReleaseBlocker(PendingActions, "")]; }
      if p.unparsed { blockers := blockers + [ReleaseBlocker(ParserErrors, "")]; }
      if p.openRisks { blockers := blockers + [ReleaseBlocker(OpenSafetyFindings, "")]; }
    }

    method RequestReleaseApproval(r: Request, newId: string, now: int) returns (reply: Result<ProjectApproval, ApprovalError>)
      modifies this
      ensures match RequestApproval(old(View()), r, newId, now)
              case Err(e) => reply == Err(e) && View() == old(View())
              case Ok(done) => reply == Ok(done.approval) && View() == done.session
    {
      var problem := CheckRequest(ctx, r);
      if problem.Some? { return Err(problem.value); }
      var readiness := BuildReadiness(ctx);
      if r.decision == RejectRelease {
        var rejection := NewRecord(ctx, r, RejectedRecord, newId, now);
        projectApprovals := projectApprovals + [rejection];
        return Ok(rejection);
      }
      if !readiness.canApprove { return Err(PrerequisitesMissing(readiness.blockers)); }
      var latest := LatestApproval(projectApprovals);
      if Grants(latest, CurrentDigest(ctx), CurrentEvidence(ctx)) { return Ok(latest.value); }
      var approval := NewRecord(ctx, r, ApprovedRecord, newId, now);
      projectApprovals := projectApprovals + [approval];
      reply := Ok(approval);
    }
  }
}
