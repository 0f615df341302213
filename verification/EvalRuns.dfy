/**
  Evaluation runs and their review: running a case, the conservative automatic judge, and the human calibration
  that alone may turn a run against the real target into a pass.
 */
module EvalRuns {
  import opened Prelude
  import opened Models
  import opened Lineage
  import opened ReleaseModels
  import opened EvaluationVersion
  import opened RiskTreatments
  import opened ReleaseEvidence

  // ----- the automatic judge ------------------------------------------------------

  function Judgement(run: EvalRun, mode: JudgeMode, verdict: Verdict, reason: Rationale, violated: seq<Rationale>): EvalRun
  {
    run.(judgeMode := mode, verdict := verdict, judgeReason := reason, violatedCriteria := violated)
  }

  function AutoJudged(c: EvalCase, run: EvalRun): (r: EvalRun)
    ensures r.verdict in {FailedVerdict, NeedsReview}
    ensures run.mode == TargetHttpMode && (run.outcome != Success || IsBlank(run.actualOutput)) ==> r.verdict == FailedVerdict
    ensures r == Judgement(run, r.judgeMode, r.verdict, r.judgeReason, r.violatedCriteria)
  {
    if run.mode == ManualMode then
      Judgement(run, HumanJudge, NeedsReview, ManualScoring, [])
    else if run.mode == DryRunMode then
      Judgement(run, RuleJudge, NeedsReview, DryRunOnly, [])
    else if run.mode == TargetHttpMode && run.outcome != Success then
      Judgement(run, RuleJudge, FailedVerdict,
                TargetFailed(run.outcome, run.errorMessage),
                [TargetFailed(run.outcome, "")])
    else if IsBlank(run.actualOutput) then
      Judgement(run, RuleJudge, FailedVerdict, EmptyOutput, [EmptyOutput])
    else if IsBlank(c.expected) then
      Judgement(run, RuleJudge, NeedsReview, NoExpectedBehavior,
                [NoExpectedBehavior])
    else if c.criteria == [] then
      Judgement(run, RuleJudge, NeedsReview, NoPassCriteria,
                [NoPassCriteria])
    else if c.passed == Some(false) then
      Judgement(run, Inherited, FailedVerdict,
                PredictedFailure,
                [PredictedFailure])
    else if c.passed == Some(true) then
      Judgement(run, Inherited, NeedsReview,
                PredictedPass, [])
    else
      Judgement(run, RuleJudge, NeedsReview, NoSemanticJudge, [])
  }

  datatype Suggestion = Suggestion(passed: bool, reason: string)

  /** The settings and the answer of the optional model judge; no answer covers every failure of it. */
  datatype ModelJudge = ModelJudge(enabled: bool, answer: Option<Suggestion>, severeTier: bool, autofinal: bool)

  function ModelJudged(run: EvalRun, judge: ModelJudge): EvalRun
  {
    if !judge.enabled || run.mode == ManualMode || run.mode == TargetHttpMode || run.verdict != NeedsReview then run
    else if judge.answer.None? || judge.severeTier || !judge.autofinal then run
    else run.(verdict := if judge.answer.value.passed then Passed else FailedVerdict,
              judgeMode := LlmJudge, judgeReason := Written(judge.answer.value.reason))
  }

  const DRY_RUN_OUTPUT := "DRY_RUN: no model call was made."

  // ----- running a case -------------------------------------------------------------

  datatype TargetReply = TargetReply(outcome: ExecutionOutcome, output: string, failure: string, endpoint: string)

  datatype TargetConfig = NoConfig | InvalidConfig | Config(endpoint: string)

  /** An exception raised by the surroundings of a run, before or after the verdict was written. */
  datatype Fault = NoFault | BeforeJudging(message: string) | AfterJudging(message: string)

  /** Everything a run learns from outside: configuration, replies, faults, its new id and the time. */
  datatype Surroundings = Surroundings(
    config: TargetConfig, mockModel: bool, model: Result<string, string>, target: Result<TargetReply, string>,
    judge: ModelJudge, fault: Fault, newId: string, now: int)

  datatype RunError = ConfigMissing | EndpointInvalid | EvalCaseNotFound | EndpointNotDeclared

  function KindOf(mode: RunMode, mockModel: bool): ExecutionKind
  {
    match mode
    case ManualMode => ManualSimulation
    case DryRunMode => DryRunSimulation
    case TargetHttpMode => RealTargetExecution
    case LlmNodeMode => if mockModel then MockModelExecution else PlatformModelExecution
  }

  function FirstCase(cases: seq<EvalCase>, evalId: string): (r: Option<EvalCase>)
    ensures r.Some? ==> r.value in cases && r.value.evalId == evalId
    ensures r.None? <==> forall c :: c in cases ==> c.evalId != evalId
  {
    if cases == [] then None
    else if cases[0].evalId == evalId then Some(cases[0])
    else FirstCase(cases[1..], evalId)
  }

  predicate HasNode(ctx: ReleaseContext, nodeId: Option<string>)
  {
    nodeId.Some? && nodeId.value != "" && exists n :: n in Nodes(ctx) && n.nodeId == nodeId.value
  }

  function ConfiguredEndpoint(s: Surroundings): string
  {
    if s.config.Config? then s.config.endpoint else ""
  }

  function CheckRun(ctx: ReleaseContext, evalId: string, mode: RunMode, s: Surroundings): Result<EvalCase, RunError>
  {
    if mode == TargetHttpMode && s.config.NoConfig? then Err(ConfigMissing)
    else if s.config.InvalidConfig? then Err(EndpointInvalid)
    else
      match FirstCase(ctx.cases, evalId)
      case None => Err(EvalCaseNotFound)
      case Some(c) =>
        if mode == TargetHttpMode && ctx.deployment.Some? && ctx.deployment.value.endpoint != "" &&
           ConfiguredEndpoint(s) != ctx.deployment.value.endpoint then Err(EndpointNotDeclared)
        else Ok(c)
  }

  /** What a run takes from the session: the declared target, the version, and whether its node exists. */
  datatype Setup = Setup(deployment: Option<Deployment>, digest: VersionDigest, hasNode: bool)

  function SetupOf(ctx: ReleaseContext, c: EvalCase): Setup
  {
    Setup(ctx.deployment, CurrentDigest(ctx), HasNode(ctx, c.targetNodeId))
  }

  function NewRun(setup: Setup, c: EvalCase, mode: RunMode, s: Surroundings): EvalRun
  {
    EvalRun(s.newId, c.evalId, c.targetNodeId, mode, KindOf(mode, s.mockModel), NoOutcome, Created, "", NoVerdict,
            Inherited, Unjudged, setup.digest, CaseDigestOf(c), ConfiguredEndpoint(s),
            if mode == TargetHttpMode && setup.deployment.Some? then setup.deployment.value.version else "", None, [], "")
  }

  function FailRun(run: EvalRun, message: string, now: int): EvalRun
  {
    run.(status := FailedRun, errorMessage := message, completedAt := Some(now))
  }

  predicate SameRun(a: EvalRun, b: EvalRun)
  {
    a.runId == b.runId && a.mode == b.mode && a.kind == b.kind
  }

  predicate PassedByModel(run: EvalRun, s: Surroundings)
  {
    run.mode in {DryRunMode, LlmNodeMode} && run.judgeMode == LlmJudge && s.judge.enabled && s.judge.autofinal && !s.judge.severeTier
  }

  /** The execution part of a run: the raised message, or the run with what it observed. */
  function Executed(setup: Setup, run: EvalRun, s: Surroundings): (r: Result<EvalRun, string>)
    ensures r.Ok? ==> SameRun(r.value, run) && r.value.verdict == run.verdict
  {
    match run.mode
    case ManualMode => Ok(run)
    case DryRunMode =>
      Ok(run.(actualOutput := DRY_RUN_OUTPUT))
    case LlmNodeMode =>
      if !setup.hasNode then Err("Workflow node not found for eval case")
      else (match s.model case Ok(text) => Ok(run.(actualOutput := text)) case Err(m) => Err(m))
    case TargetHttpMode =>
      match s.target
      case Err(m) => Err(m)
      case Ok(reply) =>
        var seen := run.(outcome := reply.outcome, endpoint := if reply.endpoint != "" then reply.endpoint else run.endpoint);
        if reply.outcome == Success then Ok(seen.(actualOutput := reply.output))
        else if reply.outcome == Timeout || reply.outcome == ErrorOutcome then
          Ok(FailRun(seen.(actualOutput := ""), reply.failure, s.now))
        else Ok(seen.(actualOutput := "", errorMessage := reply.failure))
  }

  function Concluded(c: EvalCase, run: EvalRun, s: Surroundings): (r: EvalRun)
    ensures SameRun(r, run)
    ensures r.verdict == Passed ==> run.verdict == Passed || PassedByModel(r, s)
    ensures run.mode == TargetHttpMode && r.status == Completed && run.outcome != Success ==> r.verdict == FailedVerdict
  {
    if s.fault.BeforeJudging? then FailRun(run, s.fault.message, s.now)
    else if run.status == FailedRun then run
    else
      var judged := ModelJudged(AutoJudged(c, run), s.judge);
      if s.fault.AfterJudging? then FailRun(judged, s.fault.message, s.now)
      else judged.(status := Completed, completedAt := Some(s.now))
  }

  function FinishedRun(setup: Setup, c: EvalCase, mode: RunMode, s: Surroundings): EvalRun
  {
    var created := NewRun(setup, c, mode, s);
    if mode == ManualMode then AutoJudged(c, created).(status := Completed, completedAt := Some(s.now))
    else
      match Executed(setup, created.(status := InProgress), s)
      case Err(message) => FailRun(created, message, s.now)
      case Ok(run) => Concluded(c, run, s)
  }

  function RunCase(ctx: ReleaseContext, evalId: string, mode: RunMode, s: Surroundings): Result<ReleaseContext, RunError>
  {
    match CheckRun(ctx, evalId, mode, s)
    case Err(e) => Err(e)
    case Ok(c) => Ok(ctx.(runs := ctx.runs + [FinishedRun(SetupOf(ctx, c), c, mode, s)]))
  }

  /** The model judge may decide, says the run passed, and nothing was raised before. */
  predicate JudgePasses(s: Surroundings)
  {
    && s.judge.enabled && s.judge.answer.Some? && s.judge.answer.value.passed
    && !s.judge.severeTier && s.judge.autofinal && !s.fault.BeforeJudging?
  }

  /** The model answered for an existing node and the automatic judge does not fail the answer. */
  predicate NodeAnswered(setup: Setup, c: EvalCase, s: Surroundings)
  {
    && setup.hasNode && s.model.Ok? && !IsBlank(s.model.value)
    && (IsBlank(c.expected) || c.criteria == [] || c.passed != Some(false))
  }

  /**
    Which runs end as a pass on their own: exactly the dry runs that the model judge passes, and the model runs that
    it passes after an answer. So a dry run, which calls nothing, does pass.
   */
  lemma PassesOnItsOwnIff(setup: Setup, c: EvalCase, mode: RunMode, s: Surroundings)
    ensures FinishedRun(setup, c, mode, s).verdict == Passed <==>
      JudgePasses(s) && (mode == DryRunMode || (mode == LlmNodeMode && NodeAnswered(setup, c, s)))
  {
    var created := NewRun(setup, c, mode, s);
    if mode != ManualMode {
      var executed := Executed(setup, created.(status := InProgress), s);
      if executed.Ok? { ConcludedPassesIff(c, executed.value, s); }
    }
  }

  /** A run that was executed without failing ends as a pass exactly if it was left to the model judge, who passes it. */
  lemma ConcludedPassesIff(c: EvalCase, run: EvalRun, s: Surroundings)
    requires run.verdict == NoVerdict && run.mode != ManualMode && (run.mode != TargetHttpMode ==> run.status != FailedRun)
    ensures Concluded(c, run, s).verdict == Passed <==>
      JudgePasses(s) && run.mode != TargetHttpMode && AutoJudged(c, run).verdict == NeedsReview
  {
  }

  /**
    No run ends as a pass on its own unless it never touched the real target and the model judge, allowed to
    decide, said so.
   */
  lemma AutomaticPassIsTheModelJudges(setup: Setup, c: EvalCase, mode: RunMode, s: Surroundings)
    ensures var run := FinishedRun(setup, c, mode, s);
      && run.runId == s.newId && run.mode == mode && run.kind == KindOf(mode, s.mockModel)
      && (run.verdict == Passed ==> PassedByModel(run, s))
      && (mode == TargetHttpMode && run.status == Completed && run.outcome != Success ==> run.verdict == FailedVerdict)
  {
    var created := NewRun(setup, c, mode, s);
    if mode != ManualMode {
      var executed := Executed(setup, created.(status := InProgress), s);
      if executed.Ok? { var _ := Concluded(c, executed.value, s); }
    }
  }

  /** The model judge may decide, says the run failed, and nothing was raised before. */
  predicate JudgeRefuses(s: Surroundings)
  {
    && s.judge.enabled && s.judge.answer.Some? && !s.judge.answer.value.passed
    && !s.judge.severeTier && s.judge.autofinal && !s.fault.BeforeJudging?
  }

  /** The case predicts a failure and says what was expected. */
  predicate FailureIsPredicted(c: EvalCase) { !IsBlank(c.expected) && c.criteria != [] && c.passed == Some(false) }

  /** Nothing came back from what the run should have called. */
  predicate GotNoAnswer(setup: Setup, mode: RunMode, s: Surroundings)
  {
    match mode
    case ManualMode => false
    case DryRunMode => false
    case LlmNodeMode => !setup.hasNode || s.model.Err?
    case TargetHttpMode => s.target.Err? || s.target.value.outcome in {Timeout, ErrorOutcome}
  }

  /** Every run ends; it ends as failed exactly without an answer or by a fault. A run by hand calls nothing. */
  lemma RunFailsIff(setup: Setup, c: EvalCase, mode: RunMode, s: Surroundings)
    ensures var run := FinishedRun(setup, c, mode, s);
      && run.status in {Completed, FailedRun} && run.completedAt == Some(s.now)
      && (run.status == FailedRun <==> mode != ManualMode && (!s.fault.NoFault? || GotNoAnswer(setup, mode, s)))
  {
    var created := NewRun(setup, c, mode, s);
    if mode != ManualMode {
      var executed := Executed(setup, created.(status := InProgress), s);
      if executed.Ok? { var _ := Concluded(c, executed.value, s); }
    }
  }

  /**
    Which runs end as failed verdicts on their own: a target that did not succeed, an empty answer, a predicted failure,
    or a model judge that refuses; but only if an answer came back and nothing was raised before it was judged.
   */
  lemma FailsOnItsOwnIff(setup: Setup, c: EvalCase, mode: RunMode, s: Surroundings)
    ensures FinishedRun(setup, c, mode, s).verdict == FailedVerdict <==>
      && !s.fault.BeforeJudging? && !GotNoAnswer(setup, mode, s)
      && match mode
         case ManualMode => false
         case DryRunMode => JudgeRefuses(s)
         case LlmNodeMode => IsBlank(s.model.value) || FailureIsPredicted(c) || JudgeRefuses(s)
         case TargetHttpMode =>
           s.target.value.outcome != Success || IsBlank(s.target.value.output) || FailureIsPredicted(c)
  {
    var created := NewRun(setup, c, mode, s);
    if mode != ManualMode {
      var executed := Executed(setup, created.(status := InProgress), s);
      if executed.Ok? { var _ := Concluded(c, executed.value, s); }
    }
    DryRunAnswers();
  }

  lemma DryRunAnswers()
    ensures !IsBlank(DRY_RUN_OUTPUT)
  {
    assert !IsSpace(DRY_RUN_OUTPUT[0]) && !IsSpace(DRY_RUN_OUTPUT[|DRY_RUN_OUTPUT| - 1]);
  }

  /** What a run was started with and what it observed; its status, its verdict and its times are not part of it. */
  function Observed(run: EvalRun): EvalRun
  {
    run.(status := Created, verdict := NoVerdict, judgeMode := Inherited, judgeReason := Unjudged, violatedCriteria := [],
         completedAt := None, errorMessage := "")
  }

  lemma ConcludingObservesNothing(c: EvalCase, run: EvalRun, s: Surroundings)
    ensures Observed(Concluded(c, run, s)) == Observed(run)
  {
  }

  lemma ExecutedObserves(setup: Setup, run: EvalRun, s: Surroundings)
    requires run.outcome == NoOutcome && run.actualOutput == ""
    ensures var r := Executed(setup, run, s);
      && (r.Err? <==> GotNoAnswer(setup, run.mode, s) && (run.mode == TargetHttpMode ==> s.target.Err?))
      && (r.Ok? ==> Observed(r.value) == Observed(run).(
            outcome := if run.mode == TargetHttpMode then s.target.value.outcome else NoOutcome,
            endpoint := if run.mode == TargetHttpMode && s.target.value.endpoint != "" then s.target.value.endpoint else run.endpoint,
            actualOutput := match run.mode
                            case ManualMode => ""
                            case DryRunMode => DRY_RUN_OUTPUT
                            case LlmNodeMode => s.model.value
                            case TargetHttpMode => if s.target.value.outcome == Success then s.target.value.output else ""))
  {
  }

  lemma FinishedRunObserves(setup: Setup, c: EvalCase, mode: RunMode, s: Surroundings)
    ensures var created := NewRun(setup, c, mode, s);
      match Executed(setup, created.(status := InProgress), s)
      case Err(_) => Observed(FinishedRun(setup, c, mode, s)) == Observed(created)
      case Ok(run) => Observed(FinishedRun(setup, c, mode, s)) == Observed(run)
  {
    var created := NewRun(setup, c, mode, s);
    if mode != ManualMode {
      var executed := Executed(setup, created.(status := InProgress), s);
      if executed.Ok? { ConcludingObservesNothing(c, executed.value, s); }
    }
  }

  /**
    Whatever becomes of a run, it is bound to the case, the version and the declared deployment it was started with, and
    shows what came back, which is nothing unless an answer came.
   */
  lemma RunIsBound(setup: Setup, c: EvalCase, mode: RunMode, s: Surroundings)
    ensures var run := FinishedRun(setup, c, mode, s);
      && run.runId == s.newId && run.evalId == c.evalId && run.targetNodeId == c.targetNodeId && run.mode == mode
      && run.kind == (match mode
           case ManualMode => ManualSimulation
           case DryRunMode => DryRunSimulation
           case TargetHttpMode => RealTargetExecution
           case LlmNodeMode => if s.mockModel then MockModelExecution else PlatformModelExecution)
      && run.versionDigest == setup.digest && run.caseDigest == CaseDigestOf(c)
      && run.deploymentVersion == (if mode == TargetHttpMode && setup.deployment.Some? then setup.deployment.value.version else "")
      && run.endpoint == (if mode == TargetHttpMode && s.target.Ok? && s.target.value.endpoint != ""
                          then s.target.value.endpoint else ConfiguredEndpoint(s))
      && run.outcome == (if mode == TargetHttpMode && s.target.Ok? then s.target.value.outcome else NoOutcome)
      && run.actualOutput == (match mode
           case ManualMode => ""
           case DryRunMode => DRY_RUN_OUTPUT
           case LlmNodeMode => if GotNoAnswer(setup, mode, s) then "" else s.model.value
           case TargetHttpMode => if s.target.Ok? && s.target.value.outcome == Success then s.target.value.output else "")
  {
    var run, created := FinishedRun(setup, c, mode, s), NewRun(setup, c, mode, s);
    FinishedRunObserves(setup, c, mode, s);
    ExecutedObserves(setup, created.(status := InProgress), s);
    var seen := if Executed(setup, created.(status := InProgress), s).Ok?
                then Executed(setup, created.(status := InProgress), s).value else created;
    assert Observed(run) == Observed(seen);
    FieldsOf(run, seen);
  }

  lemma FieldsOf(run: EvalRun, seen: EvalRun)
    requires Observed(run) == Observed(seen)
    ensures run == seen.(status := run.status, verdict := run.verdict, judgeMode := run.judgeMode, judgeReason := run.judgeReason,
                         violatedCriteria := run.violatedCriteria, completedAt := run.completedAt, errorMessage := run.errorMessage)
  {
    assert Observed(run).evalId == run.evalId && Observed(seen).evalId == seen.evalId;
  }

  /** A case is run exactly if it exists and the target, where one is needed, is configured as declared. */
  lemma RunIsMadeIff(ctx: ReleaseContext, evalId: string, mode: RunMode, s: Surroundings)
    ensures RunCase(ctx, evalId, mode, s).Ok? <==>
      && (exists c :: c in ctx.cases && c.evalId == evalId) && !s.config.InvalidConfig?
      && (mode == TargetHttpMode ==>
            && s.config.Config?
            && (ctx.deployment.Some? && ctx.deployment.value.endpoint != "" ==> s.config.endpoint == ctx.deployment.value.endpoint))
  {
  }

  /** Some workflow node of the session is the target of the case. */
  ghost predicate TargetExists(ctx: ReleaseContext, c: EvalCase)
  {
    ctx.stage2.Some? && exists n :: n in ctx.stage2.value && n.nodeId != "" && c.targetNodeId == Some(n.nodeId)
  }

  /** A run that is made is listed after all others, of the version now current; without its node a model run fails. */
  lemma RunIsListed(ctx: ReleaseContext, evalId: string, mode: RunMode, s: Surroundings)
    requires RunCase(ctx, evalId, mode, s).Ok?
    ensures var next, n := RunCase(ctx, evalId, mode, s).value, |ctx.runs|;
      && next == ctx.(runs := next.runs) && |next.runs| == n + 1 && next.runs[..n] == ctx.runs
      && var run := next.runs[n];
         && run.evalId == evalId && run.versionDigest == CurrentDigest(ctx)
         && exists c :: c in ctx.cases && c.evalId == evalId && run.caseDigest == CaseDigestOf(c) &&
              (mode == LlmNodeMode && !TargetExists(ctx, c) ==> run.status == FailedRun)
  {
    var c := CheckRun(ctx, evalId, mode, s).value;
    RunIsBound(SetupOf(ctx, c), c, mode, s);
    RunFailsIff(SetupOf(ctx, c), c, mode, s);
    assert HasNode(ctx, c.targetNodeId) ==> TargetExists(ctx, c);
    assert RunCase(ctx, evalId, mode, s).value.runs[|ctx.runs|].caseDigest == CaseDigestOf(c);
  }

  // ----- human calibration -----------------------------------------------------------

  datatype CalibrationError =
    | RunNotFound | ReviewerUnnamed | TargetDidNotSucceed | RunNotCompleted | OutputEmpty | BasisRequired

  datatype Review = Review(
    runId: string, verdict: Verdict, comment: string, reviewer: string, disagreement: string, newId: string, now: int)

  function FirstRunIndex(runs: seq<EvalRun>, runId: string): (i: nat)
    ensures i <= |runs|
    ensures i < |runs| ==> runs[i].runId == runId
    ensures forall j :: 0 <= j < i ==> runs[j].runId != runId
  {
    FirstIndex(runs, (r: EvalRun) => r.runId == runId)
  }

  function CheckReview(run: EvalRun, r: Review): Option<CalibrationError>
  {
    if Strip(r.reviewer) == "" then Some(ReviewerUnnamed)
    else if run.mode != TargetHttpMode || r.verdict != Passed then None
    else if run.outcome != Success then Some(TargetDidNotSucceed)
    else if run.status != Completed then Some(RunNotCompleted)
    else if IsBlank(run.actualOutput) then Some(OutputEmpty)
    else if IsBlank(r.comment) then Some(BasisRequired)
    else None
  }

  function Calibrated(run: EvalRun, r: Review): EvalRun
  {
    run.(judgeMode := HumanJudge, verdict := r.verdict,
         judgeReason := if r.comment != "" then Written(r.comment)
                        else LabelSet(r.verdict),
         violatedCriteria := if r.verdict == Passed then [] else run.violatedCriteria)
  }

  function CalibrationOf(r: Review): HumanCalibration
  {
    HumanCalibration(r.newId, r.runId, r.verdict, r.comment, Strip(r.reviewer), r.disagreement, r.now)
  }

  function Calibrate(ctx: ReleaseContext, r: Review): Result<ReleaseContext, CalibrationError>
  {
    var i := FirstRunIndex(ctx.runs, r.runId);
    if i == |ctx.runs| then Err(RunNotFound)
    else
      match CheckReview(ctx.runs[i], r)
      case Some(e) => Err(e)
      case None => Ok(ctx.(runs := ctx.runs[i := Calibrated(ctx.runs[i], r)], calibrations := ctx.calibrations + [CalibrationOf(r)]))
  }

  /**
    A calibration is taken exactly from a named reviewer, and as a pass of a run against the real target only if that
    run succeeded, ended and answered, with a basis; it then gives the run the human verdict and nothing else.
   */
  lemma CalibrationLeadsTo(ctx: ReleaseContext, r: Review)
    ensures var i := FirstRunIndex(ctx.runs, r.runId);
      && (Calibrate(ctx, r).Ok? <==>
            && i < |ctx.runs| && !IsBlank(r.reviewer)
            && (ctx.runs[i].mode == TargetHttpMode && r.verdict == Passed ==>
                  && ctx.runs[i].outcome == Success && ctx.runs[i].status == Completed
                  && !IsBlank(ctx.runs[i].actualOutput) && !IsBlank(r.comment)))
      && (Calibrate(ctx, r).Ok? ==>
            var next := Calibrate(ctx, r).value;
            && next == ctx.(runs := next.runs, calibrations := next.calibrations) && |next.runs| == |ctx.runs|
            && (forall j :: 0 <= j < |ctx.runs| && j != i ==> next.runs[j] == ctx.runs[j])
            && next.calibrations == ctx.calibrations +
                 [HumanCalibration(r.newId, r.runId, r.verdict, r.comment, Strip(r.reviewer), r.disagreement, r.now)]
            && var before, run := ctx.runs[i], next.runs[i];
               && run.verdict == r.verdict && run.judgeMode == HumanJudge
               && run == before.(judgeMode := run.judgeMode, verdict := run.verdict, judgeReason := run.judgeReason,
                                 violatedCriteria := if r.verdict == Passed then [] else before.violatedCriteria))
  {
  }

  // ----- every history of runs and reviews ---------------------------------------------

  datatype ReviewStep =
    | RunStep(evalId: string, mode: RunMode, s: Surroundings)
    | CalibrateStep(r: Review)
    | ElsewhereStep(next: ReleaseContext)

  function TakeReviewStep(ctx: ReleaseContext, step: ReviewStep): ReleaseContext
  {
    match step
    case RunStep(evalId, mode, s) => (match RunCase(ctx, evalId, mode, s) case Ok(next) => next case Err(_) => ctx)
    case CalibrateStep(r) => (match Calibrate(ctx, r) case Ok(next) => next case Err(_) => ctx)
    case ElsewhereStep(next) => next.(runs := ctx.runs, calibrations := ctx.calibrations)
  }

  /** New identifiers are fresh and the clock never runs backwards. */
  ghost predicate Admissible(ctx: ReleaseContext, step: ReviewStep)
  {
    match step
    case RunStep(_, _, s) => forall r :: r in ctx.runs ==> r.runId != s.newId
    case CalibrateStep(r) => forall c :: c in ctx.calibrations ==> c.createdAt <= r.now
    case ElsewhereStep(_) => true
  }

  function AfterSteps(ctx: ReleaseContext, steps: seq<ReviewStep>): ReleaseContext
  {
    if steps == [] then ctx else TakeReviewStep(AfterSteps(ctx, steps[..|steps| - 1]), steps[|steps| - 1])
  }

  ghost predicate AllAdmissible(ctx: ReleaseContext, steps: seq<ReviewStep>)
  {
    steps != [] ==>
      AllAdmissible(ctx, steps[..|steps| - 1]) && Admissible(AfterSteps(ctx, steps[..|steps| - 1]), steps[|steps| - 1])
  }

  /** What stands behind a pass of a run against the real target. */
  ghost predicate IsHumanPass(run: EvalRun, calibrations: seq<HumanCalibration>)
  {
    && run.judgeMode == HumanJudge && run.kind == RealTargetExecution && run.outcome == Success
    && run.status == Completed && !IsBlank(run.actualOutput)
    && exists h :: LatestCalibration(calibrations, run.runId) == Some(h) && h.verdict == Passed &&
         !IsBlank(h.comment) && !IsBlank(h.reviewer)
  }

  ghost predicate DistinctRuns(runs: seq<EvalRun>)
  {
    forall i, j :: 0 <= i < j < |runs| ==> runs[i].runId != runs[j].runId
  }

  ghost predicate HumanPassInvariant(runs: seq<EvalRun>, calibrations: seq<HumanCalibration>)
  {
    && DistinctRuns(runs)
    && (forall r :: r in runs && r.mode == TargetHttpMode ==> r.kind == RealTargetExecution)
    && (forall r :: r in runs && r.mode == TargetHttpMode && r.verdict == Passed ==> IsHumanPass(r, calibrations))
  }

  lemma CalibrationsGrow(calibrations: seq<HumanCalibration>, c: HumanCalibration, runId: string)
    ensures CalibrationsOf(calibrations + [c], runId) ==
      if c.runId == runId then CalibrationsOf(calibrations, runId) + [c] else CalibrationsOf(calibrations, runId)
  {
    FilterAppend(calibrations, [c], (x: HumanCalibration) => x.runId == runId);
  }

  lemma LatestOfOthers(calibrations: seq<HumanCalibration>, c: HumanCalibration, runId: string)
    requires c.runId != runId
    ensures LatestCalibration(calibrations + [c], runId) == LatestCalibration(calibrations, runId)
  {
    CalibrationsGrow(calibrations, c, runId);
  }

  lemma LatestIsTheNew(calibrations: seq<HumanCalibration>, c: HumanCalibration)
    requires forall x :: x in calibrations ==> x.createdAt <= c.createdAt
    ensures LatestCalibration(calibrations + [c], c.runId) == Some(c)
  {
    CalibrationsGrow(calibrations, c, c.runId);
    FilterMembers(calibrations, (x: HumanCalibration) => x.runId == c.runId);
    NewestAppend(CalibrationsOf(calibrations, c.runId), c, (x: HumanCalibration) => x.createdAt);
  }

  lemma AddingKeepsInvariant(runs: seq<EvalRun>, calibrations: seq<HumanCalibration>, run: EvalRun)
    requires HumanPassInvariant(runs, calibrations)
    requires forall r :: r in runs ==> r.runId != run.runId
    requires run.mode == TargetHttpMode ==> run.kind == RealTargetExecution && run.verdict != Passed
    ensures HumanPassInvariant(runs + [run], calibrations)
  {
  }

  lemma CalibrationKeepsInvariant(runs: seq<EvalRun>, calibrations: seq<HumanCalibration>, i: nat, r: Review)
    requires HumanPassInvariant(runs, calibrations)
    requires i < |runs| && runs[i].runId == r.runId && CheckReview(runs[i], r).None?
    requires forall x :: x in calibrations ==> x.createdAt <= r.now
    ensures HumanPassInvariant(runs[i := Calibrated(runs[i], r)], calibrations + [CalibrationOf(r)])
  {
    var after, noted := runs[i := Calibrated(runs[i], r)], calibrations + [CalibrationOf(r)];
    LatestIsTheNew(calibrations, CalibrationOf(r));
    StripTwice(r.reviewer);
    forall j | 0 <= j < |after| && after[j].mode == TargetHttpMode && after[j].verdict == Passed
      ensures IsHumanPass(after[j], noted)
    {
      if j != i {
        assert runs[j] in runs;
        LatestOfOthers(calibrations, CalibrationOf(r), runs[j].runId);
      } else {
        assert runs[i] in runs;
      }
    }
  }

  lemma StepKeepsInvariant(ctx: ReleaseContext, step: ReviewStep)
    requires HumanPassInvariant(ctx.runs, ctx.calibrations) && Admissible(ctx, step)
    ensures var after := TakeReviewStep(ctx, step); HumanPassInvariant(after.runs, after.calibrations)
  {
    match step
    case RunStep(evalId, mode, s) =>
      var checked := CheckRun(ctx, evalId, mode, s);
      if checked.Ok? {
        var setup := SetupOf(ctx, checked.value);
        AutomaticPassIsTheModelJudges(setup, checked.value, mode, s);
        AddingKeepsInvariant(ctx.runs, ctx.calibrations, FinishedRun(setup, checked.value, mode, s));
      }
    case CalibrateStep(r) =>
      var i := FirstRunIndex(ctx.runs, r.runId);
      if i < |ctx.runs| && CheckReview(ctx.runs[i], r).None? {
        CalibrationKeepsInvariant(ctx.runs, ctx.calibrations, i, r);
      }
    case ElsewhereStep(_) =>
  }

  /**
    Whatever is run, judged and calibrated, a passed run against the real target has a human pass behind it: its
    latest calibration is a pass with a written basis and a named reviewer, on a completed successful execution.
   */
  lemma {:induction false} HumanPassHoldsInEveryHistory(ctx: ReleaseContext, steps: seq<ReviewStep>)
    requires ctx.runs == [] && AllAdmissible(ctx, steps)
    ensures var after := AfterSteps(ctx, steps); HumanPassInvariant(after.runs, after.calibrations)
  {
    if steps != [] {
      HumanPassHoldsInEveryHistory(ctx, steps[..|steps| - 1]);
      StepKeepsInvariant(AfterSteps(ctx, steps[..|steps| - 1]), steps[|steps| - 1]);
    }
  }

  lemma HumanPassLeavesNoReason(run: EvalRun, calibrations: seq<HumanCalibration>)
    requires run.mode == TargetHttpMode && IsHumanPass(run, calibrations)
    ensures ExecutionReasons(run) == [] && ReviewReasons(run, LatestCalibration(calibrations, run.runId)) == []
  {
  }

  /** So only its bindings to version, case and deployment can keep such a run from being release evidence. */
  lemma PassedTargetRunLacksOnlyBindings(ctx: ReleaseContext, steps: seq<ReviewStep>, run: EvalRun,
                                         c: Option<EvalCase>, digest: VersionDigest)
    requires ctx.runs == [] && AllAdmissible(ctx, steps)
    requires run in AfterSteps(ctx, steps).runs && run.mode == TargetHttpMode && run.verdict == Passed
    ensures RunReasons(AfterSteps(ctx, steps), run, c, digest) == BindingReasons(AfterSteps(ctx, steps), run, c, digest)
  {
    HumanPassHoldsInEveryHistory(ctx, steps);
    var after := AfterSteps(ctx, steps);
    HumanPassLeavesNoReason(run, after.calibrations);
  }

  /** What a run and a review must bring to become evidence. */
  ghost predicate IsCleanPass(ctx: ReleaseContext, s: Surroundings, r: Review)
  {
    && s.fault == NoFault && s.target.Ok? && s.target.value.outcome == Success && !IsBlank(s.target.value.output)
    && (s.target.value.endpoint == "" || s.target.value.endpoint == ConfiguredEndpoint(s))
    && (forall x :: x in ctx.runs ==> x.runId != s.newId)
    && (forall c :: c in ctx.calibrations ==> c.createdAt <= r.now)
    && r.runId == s.newId && r.verdict == Passed && !IsBlank(r.comment) && !IsBlank(r.reviewer)
  }

  lemma CleanRunIsBound(ctx: ReleaseContext, c: EvalCase, s: Surroundings, r: Review)
    requires IsCleanPass(ctx, s, r) && CheckRun(ctx, c.evalId, TargetHttpMode, s) == Ok(c) && DeploymentDeclared(ctx)
    ensures var run := Calibrated(FinishedRun(SetupOf(ctx, c), c, TargetHttpMode, s), r);
      && run.runId == s.newId && run.evalId == c.evalId && run.mode == TargetHttpMode && run.kind == RealTargetExecution
      && run.outcome == Success && run.status == Completed && !IsBlank(run.actualOutput)
      && run.verdict == Passed && run.judgeMode == HumanJudge
      && run.versionDigest == CurrentDigest(ctx) && run.caseDigest == CaseDigestOf(c)
      && Deployment(run.endpoint, run.deploymentVersion) == ctx.deployment.value
    ensures CheckReview(FinishedRun(SetupOf(ctx, c), c, TargetHttpMode, s), r).None?
  {
  }

  /**
    A successful run of a case against the declared deployment, passed by a named reviewer with a written basis,
    is release evidence at once: nothing more is needed.
   */
  lemma RunAndPassIsReleaseEvidence(ctx: ReleaseContext, c: EvalCase, s: Surroundings, r: Review)
    requires IsCleanPass(ctx, s, r) && CheckRun(ctx, c.evalId, TargetHttpMode, s) == Ok(c) && DeploymentDeclared(ctx)
    requires CaseById(ctx.cases, c.evalId) == Some(c)
    ensures var ran := RunCase(ctx, c.evalId, TargetHttpMode, s).value;
      && Calibrate(ran, r).Ok?
      && var after := Calibrate(ran, r).value;
      && |after.runs| == |ctx.runs| + 1
      && ReasonsOf(after, after.runs[|ctx.runs|], CurrentDigest(after)) == []
  {
    var run := FinishedRun(SetupOf(ctx, c), c, TargetHttpMode, s);
    CleanRunIsBound(ctx, c, s, r);
    AutomaticPassIsTheModelJudges(SetupOf(ctx, c), c, TargetHttpMode, s);
    var runs := ctx.runs + [run];
    assert runs[|ctx.runs|].runId == r.runId;
    assert FirstRunIndex(runs, r.runId) == |ctx.runs| by {
      forall j | 0 <= j < |ctx.runs| ensures runs[j].runId != r.runId { assert runs[j] in ctx.runs; }
    }
    var after := Calibrate(ctx.(runs := runs), r).value;
    PassIsEvidence(ctx, after, Calibrated(run, r), c, r);
  }

  lemma PassIsEvidence(ctx: ReleaseContext, after: ReleaseContext, run: EvalRun, c: EvalCase, r: Review)
    requires after == ctx.(runs := after.runs, calibrations := ctx.calibrations + [CalibrationOf(r)])
    requires forall x :: x in ctx.calibrations ==> x.createdAt <= r.now
    requires r.verdict == Passed && !IsBlank(r.comment) && !IsBlank(r.reviewer)
    requires run.runId == r.runId && run.evalId == c.evalId && run.mode == TargetHttpMode && run.kind == RealTargetExecution
    requires run.outcome == Success && run.status == Completed && !IsBlank(run.actualOutput)
    requires run.verdict == Passed && run.judgeMode == HumanJudge
    requires run.versionDigest == CurrentDigest(ctx) && run.caseDigest == CaseDigestOf(c)
    requires CaseById(ctx.cases, c.evalId) == Some(c) && DeploymentDeclared(ctx)
    requires Deployment(run.endpoint, run.deploymentVersion) == ctx.deployment.value
    ensures ReasonsOf(after, run, CurrentDigest(after)) == []
  {
    LatestIsTheNew(ctx.calibrations, CalibrationOf(r));
    StripTwice(r.reviewer);
    SameVersion(ctx, after);
    NoReasonIffEvidence(after, run, Some(c), CurrentDigest(ctx));
  }

  lemma SameVersion(ctx: ReleaseContext, after: ReleaseContext)
    requires after == ctx.(runs := after.runs, calibrations := after.calibrations)
    ensures CurrentDigest(after) == CurrentDigest(ctx)
  {
  }

  // ----- the services ----------------------------------------------------------------------

  /** Writes the judge fields of a run branch by branch. */
  method JudgeEvalRun(c: EvalCase, run: EvalRun) returns (r: EvalRun)
    ensures r == AutoJudged(c, run)
    ensures r.verdict != Passed
  {
    r := run.(violatedCriteria := []);
    if run.mode == ManualMode {
      return r.(judgeMode := HumanJudge, verdict := NeedsReview, judgeReason := ManualScoring);
    }
    if run.mode == DryRunMode {
      return r.(judgeMode := RuleJudge, verdict := NeedsReview,
                judgeReason := DryRunOnly);
    }
    r := r.(judgeMode := RuleJudge);
    if run.mode == TargetHttpMode && run.outcome != Success {
      r := r.(verdict := FailedVerdict,
              judgeReason := TargetFailed(run.outcome, run.errorMessage));
      return r.(violatedCriteria := [TargetFailed(run.outcome, "")]);
    }
    if IsBlank(run.actualOutput) {
      r := r.(verdict := FailedVerdict, judgeReason := EmptyOutput);
      return r.(violatedCriteria := [EmptyOutput]);
    }
    if IsBlank(c.expected) {
      r := r.(verdict := NeedsReview, judgeReason := NoExpectedBehavior);
      return r.(violatedCriteria := [NoExpectedBehavior]);
    }
    if c.criteria == [] {
      r := r.(verdict := NeedsReview, judgeReason := NoPassCriteria);
      return r.(violatedCriteria := [NoPassCriteria]);
    }
    if c.passed == Some(false) {
      r := r.(judgeMode := Inherited, verdict := FailedVerdict,
              judgeReason := PredictedFailure);
      return r.(violatedCriteria := [PredictedFailure]);
    }
    if c.passed == Some(true) {
      return r.(judgeMode := Inherited, verdict := NeedsReview,
                judgeReason := PredictedPass);
    }
    r := r.(verdict := NeedsReview, judgeReason := NoSemanticJudge);
  }

  class EvalService {
    var ctx: ReleaseContext

    constructor (ctx: ReleaseContext)
      ensures this.ctx == ctx
    {
      this.ctx := ctx;
    }

    /** The run is listed as soon as it is created and then updated where it is listed. */
    method RunEvalCase(evalId: string, mode: RunMode, s: Surroundings) returns (reply: Result<EvalRun, RunError>)
      modifies this
      ensures match RunCase(old(ctx), evalId, mode, s)
              case Err(e) => reply == Err(e) && ctx == old(ctx)
              case Ok(after) => ctx == after && reply == Ok(after.runs[|after.runs| - 1])
    {
      var checked := CheckRun(ctx, evalId, mode, s);
      if checked.Err? { return Err(checked.error); }
      var c, setup, at := checked.value, SetupOf(ctx, checked.value), |ctx.runs|;
      var run := NewRun(setup, c, mode, s);
      ctx := ctx.(runs := ctx.runs + [run]);
      run := Perform(setup, c, run, s);
      ctx := ctx.(runs := ctx.runs[at := run]);
      assert ctx.runs == old(ctx).runs + [run];
      reply := Ok(run);
    }

    static method Perform(setup: Setup, c: EvalCase, created: EvalRun, s: Surroundings) returns (run: EvalRun)
      requires created == NewRun(setup, c, created.mode, s)
      ensures run == FinishedRun(setup, c, created.mode, s)
    {
      run := created;
      if run.mode == ManualMode {
        run := JudgeEvalRun(c, run);
        run := run.(status := Completed);
        run := run.(completedAt := Some(s.now));
        return;
      }
      run := run.(status := InProgress);
      var executed := Execute(setup, run, s);
      if executed.Err? {
        run := run.(status := FailedRun);
        run := run.(errorMessage := executed.error);
        run := run.(completedAt := Some(s.now));
      } else {
        run := Conclude(c, executed.value, s);
      }
    }

    static method Execute(setup: Setup, run: EvalRun, s: Surroundings) returns (r: Result<EvalRun, string>)
      ensures r == Executed(setup, run, s)
    {
      var seen := run;
      match run.mode {
        case ManualMode =>
        case DryRunMode =>
          seen := seen.(actualOutput := DRY_RUN_OUTPUT);
        case LlmNodeMode =>
          if !setup.hasNode { return Err("Workflow node not found for eval case"); }
          if s.model.Err? { return Err(s.model.error); }
          seen := seen.(actualOutput := s.model.value);
        case TargetHttpMode =>
          if s.target.Err? { return Err(s.target.error); }
          var reply := s.target.value;
          seen := seen.(outcome := reply.outcome);
          if reply.endpoint != "" { seen := seen.(endpoint := reply.endpoint); }
          if reply.outcome == Success {
            seen := seen.(actualOutput := reply.output);
          } else {
            seen := seen.(actualOutput := "", errorMessage := reply.failure);
            if reply.outcome == Timeout || reply.outcome == ErrorOutcome {
              seen := seen.(status := FailedRun, completedAt := Some(s.now));
            }
          }
      }
      r := Ok(seen);
    }

    static method Conclude(c: EvalCase, run: EvalRun, s: Surroundings) returns (r: EvalRun)
      ensures r == Concluded(c, run, s)
    {
      r := run;
      if s.fault.BeforeJudging? { return FailRun(r, s.fault.message, s.now); }
      if r.status != FailedRun {
        r := JudgeEvalRun(c, r);
        r := ModelJudged(r, s.judge);
        if s.fault.AfterJudging? { return FailRun(r, s.fault.message, s.now); }
        r := r.(status := Completed);
        r := r.(completedAt := Some(s.now));
      }
    }

    method CalibrateEvalRun(r: Review) returns (reply: Result<HumanCalibration, CalibrationError>)
      modifies this
      ensures match Calibrate(old(ctx), r)
              case Err(e) => reply == Err(e) && ctx == old(ctx)
              case Ok(after) => ctx == after && reply == Ok(CalibrationOf(r))
    {
      var i := FirstRunIndex(ctx.runs, r.runId);
      if i == |ctx.runs| { return Err(RunNotFound); }
      var run := ctx.runs[i];
      var reviewer := Strip(r.reviewer);
      if reviewer == "" { return Err(ReviewerUnnamed); }
      if run.mode == TargetHttpMode && run.outcome != Success && r.verdict == Passed { return Err(TargetDidNotSucceed); }
      if r.verdict == Passed && run.mode == TargetHttpMode {
        if run.status != Completed { return Err(RunNotCompleted); }
        if IsBlank(run.actualOutput) { return Err(OutputEmpty); }
        if IsBlank(r.comment) { return Err(BasisRequired); }
      }
      var calibration := HumanCalibration(r.newId, r.runId, r.verdict, r.comment, reviewer, r.disagreement, r.now);
      ctx := ctx.(calibrations := ctx.calibrations + [calibration]);
      run := run.(judgeMode := HumanJudge);
      run := run.(verdict := r.verdict);
      run := run.(judgeReason := if r.comment != "" then Written(r.comment)
                                 else LabelSet(r.verdict));
      if r.verdict == Passed { run := run.(violatedCriteria := []); }
      ctx := ctx.(runs := ctx.runs[i := run]);
      reply := Ok(calibration);
    }
  }
}
