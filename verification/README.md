# Verified model of the assessment governance core

The repository guides a four-stage risk assessment of an AI workflow. Transitions are decided by code: stage outputs
carry version counters and stale flags, a human review gate lets a session advance, evaluation evidence and an
administrator's approval decide a release, and human actions are mapped to interrupts of a graph engine. This project
models that code in Dafny and proves what it keeps. `dafny verify dfyconfig.toml` checks all of it.

| file | what it models |
|---|---|
| `Lineage.dfy`, `Workflow.dfy`, `Session.dfy` | stage versions, stale flags, the workflow, its gates and whole histories; the mutable session object |
| `EvaluationVersion.dfy`, `RiskTreatments.dfy`, `ReleaseEvidence.dfy`, `Approval.dfy` | evaluation digests, treatments, the release batch, readiness, approvals and the release gate |
| `ReleaseRequirements.dfy`, `BoundEvidence.dfy` | what a release requires and what an approval is bound to, said of the session, and proved of the above |
| `EvalRuns.dfy` | running, judging and calibrating evaluation runs |
| `Interrupts.dfy`, `Resumes.dfy`, `ResumeOutbox.dfy`, `Execution.dfy` | interrupt records, one guarded turn, consume-once resumes, durable retry |
| `Projection.dfy` | differential saving of projection tables |
| `RedTeams.dfy`, `TraceBackfill.dfy`, `EvalDatasets.dfy` | the generators that close coverage gaps, and the summaries that report them |
| `EvalMetrics.dfy` | metrics, comparison and the regression gate |
| `FieldSecurity.dfy` | field encryption at rest and the goal backfill |
| `Prelude.dfy`, `Timestamps.dfy`, `Models.dfy`, `ReleaseModels.dfy` | list idioms, times as texts, shared values |

Services that update an object are classes whose methods are proved to leave exactly what a specification function
says; the lemmas are about those functions, over all inputs, runs and reachable states. What a service learns from
outside (model calls, targets, the engine, clocks, identifiers, other rules) is a parameter that ranges over every value;
identifiers are assumed fresh where that is said, time never runs backwards, digests are injective and so modelled as
what they cover.

## What turned out differently from the documentation

- A stage counter starts at 0 but reads as 1 when absent, so the first bump is invisible: "strictly increasing" holds exactly
  for stages counted before (`StageCommitIsVisibleIffCounted`).
- A treatment's reviewer can become its last updater, by resubmitting the same content
  (`ReviewerIndependenceLapsesOnlyBySelfResubmission`).
- A dry run, which calls nothing, is judged passed exactly if the model judge may decide and passes it (`PassesOnItsOwnIff`).
- A blocked state is left not only by recovery: revision and rollback requests do not ask for the state (`UnblockedIff`).
- For the same reason, and because a direct advance names any stage, stages can be leapt over (`LevelRisesIff`, `RevisionLeaps`).
  Yet COMPLETE is never entered but on one fresh lineage (`CompleteIsEnteredOnOneLineage`): the stage 4 gate asks all earlier gates.
- Durable resumes are at-least-once. An acknowledged resume is forgotten exactly if the process dies after it, the save fails, or
  the outbox row stands for another record than the one consumed, because the queue keeps the first interrupt of an action
  (`RetryLosesIff`); a later retry then resumes again, with such a row every time (`LostSaveIsResumedAgain`,
  `CrashAfterSendIsResumedAgain`, `MismatchedRowSendsEveryTime`). Exactly once holds if and only if no such guard is met
  (`SentAsRememberedIffNoGuardFails`).
- The SQLite claim compares two text formats of time, so a claim is given up long before the timeout if five minutes ago was the
  day of the claim (`AbandonedIsADayComparison`).
- A record resumed for a rejected evidence question stays unconsumed for good (`RejectedEvidenceIsResumedButNotSent`). So would
  one marked without a policy effect, but that is only the default argument of the marking function (`MarkingWithoutPolicyIsStuck`).
- The SQL writer replaces or inserts rows but never deletes, so a "full rewrite" keeps rows the collection dropped
  (`TableIsCollectionIffNothingRemoved`).
- Red-team generation is idempotent and complete only for non-empty identifiers, and does not cover nodes that are high-risk by
  policy alone (`SecondGenerationCreatesOnlyUnnamed`, `MissingNodesAfterGeneration`).
- Demo data is never encrypted but still decrypted, so demo text that happens to start with the ciphertext prefix does not load
  (`StoredFieldsLoad`); without a key a goal can "verify" that cannot be read (`VerifiedMeansDecryptableIffNotLenient`).
- The regression decision does not check which baseline a comparison used (`DecisionIgnoresComparedBaseline`). It is right if the
  comparison names the data set's baseline and is up to date (`OwnBaselineComparisonDecides`); with any other baseline it can pass
  a worse experiment (`OtherBaselineMayHideARegression`).
- A fall of the pass rate of exactly five points need not be tolerated: 19 of 20 after 20 of 20 is flagged in binary64
  (`FallOfFivePointsIsFlagged`). Rounding decides nowhere but at the threshold (`RoundingDecidesOnlyAtTheThreshold`).
- `advance_stage_if_ready` refuses the two blocked states but not unknown ones, and `revise_stage` and `rollback_stage` may raise
  after part of their effect; both are modelled as the code has them.

## Model

| member | source | states |
|---|---|---|
| Lineage.BumpIsVisibleIffCounted | core/governance/action_state.py:150-158 | A bump never lowers any version as read, and raises the bumped stage's exactly if the stage was counted before (reads default to 1, counting starts at 0) |
| Lineage.InvalidateEffect | core/stage_revision_service.py:110-170 | Invalidation flags exactly the later stages that had any state, because of the changed stage, and touches no other flag, output, version or record |
| Lineage.NoStateIff | core/stage_revision_service.py:101-107 | A stage has nothing to outdate exactly without an output, recorded versions, a parser error and an action |
| Lineage.InvalidateSettlesAction | core/stage_revision_service.py:110-170 | Invalidation supersedes the open or rejected actions of every later stage and leaves every other action alone, although stages are handled one after another |
| Lineage.InvalidateClearsParserErrors | core/stage_revision_service.py:110-170 | Invalidation drops the parser error of exactly the later stages that had state |
| Lineage.RollbackSettlesAction | core/stage_revision_service.py:217-277 | A rollback supersedes the open and rejected actions of the stages it goes back over, also when it goes back to the start; those of later stages only with the invalidation, which a rollback to the start does not do; every other action is left alone |
| Lineage.RevisionLeadsTo | core/stage_revision_service.py:173-214 | A revision fails exactly for a stage that does not exist; else the stage runs again with the note, each later stage that had state is marked with what it was built on and loses its parser error, and nothing else changes |
| Lineage.RevisionSettlesAction | core/stage_revision_service.py:173-214 | A revision supersedes the open and rejected actions of its stage, and of every later stage as outdated, and leaves every other action alone |
| Lineage.RollbackLeadsTo | core/stage_revision_service.py:217-277 | A rollback is refused exactly unless it goes back from a stage that exists to an earlier one or the start; it moves there, under review or running as asked, counts iterations anew and marks what is later, except from the start; also what is left when it raises half-way |
| Lineage.InvalidateUnfolds | core/stage_revision_service.py:118-170 | One stage of the invalidation loop: it is handled exactly if it has state, which later supersessions do not change |
| Lineage.CommitEffect | graph/nodes.py:290-300 | Counting, recording and invalidating together: the new output is unflagged with current records, every later output is flagged |
| Lineage.CommitLeadsTo | graph/nodes.py:290-300 | A commit counts the output and records what it was made from; the stage is no longer flagged, each later stage that had state is marked by the new versions, and nothing else changes |
| Lineage.RunLeadsTo | graph/nodes.py:273-329 | A run that produced an output commits it, keeps or drops the parser error of the stage by what it gave and adds the review actions; a failed one changes nothing but state and error, and an empty first output |
| Lineage.EditLeadsTo | core/governance/action_effects.py:240-262 | An edit commits the output in the same way, settles the actions of its own stage too, and leaves the state |
| Lineage.CommitKeepsLineage | graph/nodes.py:290-300 | A commit keeps the lineage invariant |
| Lineage.StepKeepsLineage | core/stage_revision_service.py:79-277 | Each regenerate, edit, revise and rollback, also one that raises half-way, keeps the lineage invariant |
| Lineage.LineageHoldsInEveryRun | core/stage_revision_service.py:79-170 | In every run each output of stages 2 to 4 is flagged, or its recorded versions equal the current ones and it was made from the upstream outputs that stand now |
| Lineage.StaleCollectorIsExact | core/stage_readiness_service.py:192-243 | In every run the stale collector is silent exactly if the stage is not flagged; the version comparison never blocks a stage the flag does not |
| Lineage.CountersCountMakes | core/governance/action_state.py:150-158 | In every run each version counter is the number of times its output was made, and every output of stages 2 to 4 is counted |
| Lineage.FreshOutputsFormOneLineage | core/approval_service.py:91-100 | Four outputs and no stale key: each stage was made from exactly the earlier outputs that stand now, and its records say so |
| Session.ProjectContext.BumpStageOutputVersion | core/governance/action_state.py:154-158 | Updates the counter in place as the specification the lineage lemmas are about, and returns it |
| Session.ProjectContext.RecordStageDependencyVersions | core/stage_revision_service.py:79-98 | Writes the upstream versions of the stage and clears its flag |
| Session.ProjectContext.SupersedeActionsForStage | core/governance/action_resolution.py:499-547 | The loop supersedes exactly the pending and the rejected actions of the stage, in place, and returns how many |
| Session.ProjectContext.MarkDownstreamStale | core/stage_revision_service.py:126-170 | Flags one stage if it has state; otherwise changes nothing |
| Session.ProjectContext.FlagDownstream | core/stage_revision_service.py:118-170 | The loop over the later stages leaves what invalidation specifies and returns exactly the stages that had state, in order |
| Session.ProjectContext.InvalidateDownstreamStages | core/stage_revision_service.py:110-170 | The same behind the check of the stage number, which raises without any change |
| Session.ProjectContext.ReviseStage | core/stage_revision_service.py:173-214 | Leaves the specified revision, including what has already changed when it raises |
| Session.ProjectContext.RollbackStage | core/stage_revision_service.py:217-277 | Leaves the specified rollback, including the superseded actions of a rollback that raises |
| Session.ProjectContext.CommitStageOutput | graph/nodes.py:290-300 | Counts, records and invalidates in that order |
| Session.ProjectContext.NodeInit | graph/nodes.py:200-270 | The state effects of the intake turn |
| Session.ProjectContext.NodeStageRunning | graph/nodes.py:273-329 | The state effects of a stage run, for a failed model call, a parser error and a failing gate evaluation |
| Session.ProjectContext.EditStageOutput | core/governance/action_effects.py:240-262 | A human edit of an output commits it like a regeneration |
| Session.ProjectContext.AdvanceStageIfReady | core/stage_advancement_coordinator.py:273-364 | Advances exactly behind a clear gate from an unblocked state, records the approval, and raises when a strict gate record cannot be stored |
| Session.ProjectContext.NodeStageReview | graph/nodes.py:332-447 | The state effects of each reviewer reply |
| Session.ProjectContext.MarkInvalidState | core/workflow_state_service.py:59-74 | Parks the session in the recovery state and keeps the rest |
| Session.ProjectContext.MarkWorkflowError | core/workflow_state_service.py:77-94 | Parks the session in the failed state and keeps the rest |
| Session.ProjectContext.RecoverWorkflow | core/workflow_state_service.py:155-181 | Recovers as specified or changes nothing |
| Session.ProjectContext.RunOneStep | graph/runner.py:45-97 | One turn leaves what the run-level lemmas are about |
| Workflow.SanitizeIsIdempotentAndMinimal | core/workflow_state_service.py:122-136 | Sanitizing changes exactly the unknown states, into a blocked one, is idempotent and leaves all other data alone |
| Workflow.ParsesIff | core/models.py:23-39 | A stored name is read as the state it names, and is unknown exactly if it names none of the thirteen |
| Workflow.SanitizeLeadsTo | core/workflow_state_service.py:122-136 | A stored state is replaced exactly if its name is unknown, by the recovery state, with the name kept in the error |
| Workflow.RecoveryIsExact | core/workflow_state_service.py:139-181 | Recovery succeeds exactly from a state that cannot advance to a named resumable one, and changes nothing but state and error |
| Workflow.RecoversIff | core/workflow_state_service.py:139-181 | In names: recovery is allowed exactly from an error, the recovery state or an unknown one, to one of the ten working states, and leads there |
| Workflow.NoActionBlockers | core/stage_readiness_service.py:465-551 | The action collector is empty exactly if no action of the stage and version blocks |
| Workflow.BlockerSaysWhy | core/stage_readiness_service.py:465-551 | Which kind of blocker an action is: pending and blocking, rejected, or an escalation that was neither approved nor given up |
| Workflow.GateIsClearIff | core/stage_readiness_service.py:174-585 | A gate is clear exactly if the stage has an output that is not outdated by flag or version, parsed, without an open, rejected or escalated action of its version, and no other rule objects; the last gate wants the same of every earlier stage that was reached |
| Workflow.AdvanceLeadsTo | core/stage_advancement_coordinator.py:273-364 | Approving moves on, to the next stage or to COMPLETE with the approval noted, exactly from an unblocked state through a clear gate whose record is stored, and else changes nothing |
| Workflow.RevisionSettlesActions | core/stage_revision_service.py:173-214 | After a revision no pending or rejected action of the revised or a later stage blocks the gate, and no earlier action changed |
| Workflow.RunningTurnReachesReviewIff | graph/nodes.py:273-329 | A turn of a running stage ends under review exactly if the model call produced an output and the gate could be evaluated; else the stage keeps running with the error, and a failed call raises exactly if it was raised again |
| Workflow.ReviewTurnLeadsTo | graph/nodes.py:332-447 | Where a turn of a stage under review leads, reply by reply: onward exactly through its gate, to a new run with the note, one stage back, to the design stage, or nowhere; it raises exactly if the gate record cannot be stored |
| Workflow.OtherTurnsLeadTo | graph/runner.py:45-97 | What a turn of any other state leads to: collecting ends in the first stage or starts over, a blocked or complete session stays as it is, and an unknown state is parked under its name |
| Workflow.NineSmoothTurnsComplete | graph/runner.py:45-97 | Progress: from a fresh session, collecting and then running and approving each stage, nine turns to which no rule objects, end in COMPLETE |
| Workflow.LevelRisesOnlyThroughTheGate | graph/nodes.py:332-447 | One turn raises the stage level by at most one, and only by an approval with that stage's gate clear |
| Workflow.LevelRisesIff | core/stage_advancement_coordinator.py:273-364 | Whatever the event (turn, direct advance, recovery, edit, revision or rollback request, failure, other work), the level rises exactly if the next stage is left upward through its clear gate, by one, or a direct advance, recovery or request leaps over stages |
| Workflow.StagesAreClearedInOrder | graph/runner.py:45-97 | In every history of such events from INIT without a leap, each stage below the current level was left upward through a clear gate, in stage order |
| Workflow.CompleteOnlyThroughGates | graph/runner.py:45-97 | In every such history COMPLETE is reached only after all four stages were left upward in order, each with its gate clear |
| Workflow.RevisionLeaps | core/stage_operation_service.py:89-120 | A revision request for stage 4 of a fresh session is a leap: it claims three stages of which none was left |
| Workflow.TurnIsLineageSteps | graph/runner.py:45-97 | Each turn amounts to one or two lineage steps |
| Workflow.EventIsLineageSteps | core/stage_revision_service.py:173-277 | Each event amounts to one or two lineage steps |
| Workflow.HistoryRefinesLineage | graph/runner.py:45-97 | Every history of a session is a run of lineage steps, so the lineage invariant holds of it |
| Workflow.ClearedStagesStayFreshIff | core/governance/action_effects.py:240-262 | Whatever the event, that the stages below the level are counted and unflagged survives exactly unless it edits a stage before the last cleared one or moves onto a stage that is not; no turn and no other work fails it |
| Workflow.ClearedStagesStayFresh | core/stage_readiness_service.py:192-243 | In every history whose events keep to that guard the stages below the current level have counted, unflagged outputs |
| Workflow.ClearFinalGateMeansOneLineage | core/gates/rules/stage4_final_governance.py:24-50 | After any regenerations, edits, revisions, rollbacks and other work a clear stage 4 gate means four outputs, none stale, each made from the earlier outputs that stand now |
| Workflow.EditClosesFinalGate | core/gates/rules/stage4_final_governance.py:24-50 | Editing a stage closes the stage 4 gate while an output of a later stage was not made again |
| Workflow.CompleteIsEnteredOnOneLineage | core/gates/rules/stage4_final_governance.py:17-95 | In every history without exception: at the moment COMPLETE is entered all outputs exist, none is stale, and each was made from the earlier outputs that stand now |
| Workflow.CompleteStaysOneLineage | graph/runner.py:45-97 | In histories that keep to the freshness guard this holds as long as COMPLETE stands, with all four stages counted |
| Workflow.UnblockedIff | core/workflow_state_service.py:111-119 | A blocked session is unblocked exactly by a recovery to a resumable state or a revision or rollback request; a turn, an advance or a failed recovery changes nothing |
| Workflow.OnlyUnblockingUnblocks | core/workflow_state_service.py:111-119 | Over any history a blocked session stays blocked until the first such event, and unchanged while only turns, advances and recoveries are tried; of these only a successful recovery unblocks |
| Workflow.CompleteOnlyThroughLastGate | core/stage_advancement_coordinator.py:273-364 | Whatever the operation, COMPLETE is entered only through a clear stage 4 gate, from stage 4 review if it was a turn |
| EvaluationVersion.EqualDigestsAgreeOnCounters | core/evaluation_version.py:47-75 | Equal digests agree on every stage version, every input version, the number of cases and the sum of their standard versions, though cases are sorted first |
| EvaluationVersion.DigestsAreEqualIff | core/evaluation_version.py:98-198 | Two sessions have the same evaluation version exactly if all counters, inputs, materials, deployment, policy, risk digest, stage contents and case definitions are the same: evidence and failure modes in any order, cases by identifier, outcomes not at all, no output as an empty one |
| EvaluationVersion.SortCasesIsStable | core/evaluation_version.py:166-170 | The cases are digested in order of their identifiers, those that share one in the order in which they were added |
| EvaluationVersion.DefineAlikeIff | core/evaluation_version.py:61-75 | Two cases have the same digest exactly if they differ in outcomes and in the order of their failure modes alone |
| EvaluationVersion.StepsNeverLowerACounter | core/evaluation_version.py:54-58 | No step lowers a counter, and a counted step moves one |
| EvaluationVersion.CountedStepIsNeverUndone | core/evaluation_version.py:178-198 | Once a counted change has happened, after any other changes, no later steps, whatever content they restore, bring back the digest of any earlier session |
| EvaluationVersion.StageCommitIsVisibleIffCounted | core/governance/action_state.py:154-158 | Recommitting the same content of a stage changes the digest exactly if the stage was counted before |
| EvaluationVersion.StandardUpdateLeadsTo | core/eval_service.py:103-148 | An update of a test definition is refused exactly if it asks for nothing or the case is unknown; else the first case of the identifier has each field asked for, the others as before, and a new standard version exactly if something changed |
| EvaluationVersion.InputChangeIsVisible | core/evaluation_version.py:54-58 | Changing an input always gives a new version, whatever else is restored with it |
| EvaluationVersion.ScoringKeepsTheDigest | core/evaluation_version.py:61-75 | Scoring a case leaves the evaluation version alone |
| EvaluationVersion.VersionedSession.BumpInputVersion | core/evaluation_version.py:54-58 | Raises the one input counter in place |
| EvaluationVersion.VersionedSession.UpdateEvalCaseStandard | core/eval_service.py:103-148 | The search loop counts a new standard version exactly for an actual change of the first matching case |
| RiskTreatments.RequirementsAreExact | core/risk_treatment_service.py:52-93 | Exactly the severe failure modes and open severe findings must be treated, each once |
| RiskTreatments.NoBlockerMeansAllComplete | core/risk_treatment_service.py:126-150 | No treatment blocker exactly if every requirement's treatment is complete |
| RiskTreatments.StepKeepsTreatments | core/risk_treatment_service.py:179-341 | Every submission and review keeps the treatment invariant |
| RiskTreatments.SubmissionIsTakenIff | core/risk_treatment_service.py:179-214 | A plan is taken exactly from an editor or admin, with a supported status, an owner and a plan, for a risk that must be treated now |
| RiskTreatments.SubmissionLeadsTo | core/risk_treatment_service.py:206-249 | It then stands as submitted, trimmed and under the current version, in place of the latest treatment of its source or as a new one, and nothing else is touched |
| RiskTreatments.ReviewIsTakenIff | core/risk_treatment_service.py:278-316 | A review is taken exactly from an editor or admin other than the last updater, of a plan of the current version, and an acceptance only of a final status |
| RiskTreatments.ReviewLeadsTo | core/risk_treatment_service.py:308-326 | Accepting signs the plan as it stands; rejecting sends it back to treatment unsigned, so that it is not complete; nothing else is touched |
| RiskTreatments.TreatmentsHoldInEveryRun | core/risk_treatment_service.py:179-341 | In every interleaving: one treatment per source; a standing review covers owner, plan, status and digest as they stand, with a final status |
| RiskTreatments.CompleteMeansReviewedAsItStands | core/risk_treatment_service.py:111-123 | A treatment counts as complete exactly if a standing review is under the current version, and then that review accepted exactly what stands |
| RiskTreatments.ReviewerIndependenceLapsesOnlyBySelfResubmission | core/risk_treatment_service.py:236-255 | Reviewer and last updater coincide exactly after the reviewer resubmits the same content under the same version |
| RiskTreatments.AcceptingReviewerIsIndependent | core/risk_treatment_service.py:294-324 | At acceptance the reviewer differs from the last updater and the version is the current one |
| RiskTreatments.TreatmentService.HighRiskTreatmentRequirements | core/risk_treatment_service.py:52-93 | Both loops build the specified requirement list |
| RiskTreatments.TreatmentService.CollectTreatmentBlockers | core/risk_treatment_service.py:126-150 | The loop builds the specified blockers |
| RiskTreatments.TreatmentService.UpsertRiskTreatment | core/risk_treatment_service.py:179-275 | Submits as specified or changes nothing |
| RiskTreatments.TreatmentService.ReviewRiskTreatment | core/risk_treatment_service.py:278-341 | Reviews as specified or changes nothing |
| ReleaseEvidence.SortedUniqueMembers | core/release_evidence.py:163-170 | Sorting and deduplicating the required ids loses and adds none |
| ReleaseEvidence.SortedUniqueIncreases | core/release_evidence.py:163-170 | and leaves them in increasing order, each once |
| ReleaseEvidence.NoReasonIffEvidence | core/release_evidence.py:97-143 | A run has no reason against it exactly if it is completed real-target evidence with a written, named, latest human pass, bound to version, case and deployment |
| ReleaseEvidence.ReleaseRunReasons | core/release_evidence.py:97-143 | The appended reasons are the specified ones, in order; none exactly for release evidence |
| ReleaseEvidence.NotAfterIsTotalOrder | core/release_evidence.py:146-147 | The sort key orders experiments totally |
| ReleaseEvidence.CandidatesAre | core/release_evidence.py:166-176 | Exactly the completed real-target experiments are considered, newest first |
| ReleaseEvidence.QualifiesIffCompleteBatch | core/release_evidence.py:188-297 | An experiment qualifies exactly if all its relevant runs are evidence and every required case has one (for no required case: a non-empty all-valid list) |
| ReleaseEvidence.SelectFromStops | core/release_evidence.py:188-306 | The search stops at the first qualifying candidate, or past the last with an explanation |
| ReleaseEvidence.SelectionIsSoundCompleteAndLatest | core/release_evidence.py:159-306 | A batch is selected exactly if some candidate is a complete batch; it is the newest such, with exactly that experiment's relevant runs; no batch carries a blocker |
| ReleaseEvidence.JudgeRuns | core/release_evidence.py:200-230 | The loop splits the runs and builds the blockers as specified |
| ReleaseEvidence.JudgeExperiment | core/release_evidence.py:185-260 | One candidate is judged as specified |
| ReleaseEvidence.SelectReleaseBatch | core/release_evidence.py:159-306 | The search loop selects what the specification selects |
| ReleaseEvidence.ResubmissionKeepsBoundIffIdentical | core/release_evidence.py:352-372 | A resubmitted treatment leaves what an approval binds exactly if it repeats content, note and version, whoever submits it and whenever |
| Approval.EvidenceBlockersAgree | core/release_evidence.py:437-473 | The evidence blockers are empty exactly if there is a batch, a declared deployment and no missing required case |
| Approval.ChecksAgreeWithBlockers | core/approval_service.py:209-363 | All checks pass exactly if the blocker list is empty, though three checks search the list and the others look at the session |
| Approval.ReadinessAgrees | core/approval_service.py:209-363 | For every business session approval is possible exactly if there is no blocker, and then a batch exists |
| Approval.DecisionIsExact | core/release_gate_service.py:131-167 | From any readiness whose two halves agree the gate allows exactly if effectively approved, and the reason prerequisites_not_met cannot occur |
| Approval.GateIsExact | core/release_gate_service.py:108-168 | Allow exactly if the latest decision is effectively approved; allow has no blocker, block at least one |
| Approval.ApprovalGrants | core/approval_service.py:499-615 | A successful approval leaves a latest decision that grants the current version and evidence |
| Approval.RequestIsAnsweredIff | core/approval_service.py:499-615 | A request is answered exactly if it is about a business session, decides, comes from a named admin who is not the named creator and, to approve, nothing is missing; what it appends records decision, actor, version, evidence and readiness as they are |
| Approval.GrantIsEffectiveAndIdempotent | core/approval_service.py:499-615 | After a successful approval the gate allows with it, and approving again appends nothing |
| Approval.RejectionBlocks | core/approval_service.py:440-483 | A later rejection blocks, whatever was approved before |
| Approval.WorkKeepsReadiness | core/approval_service.py:209-363 | New unlisted runs and unfinished experiments change neither readiness nor version |
| Approval.WorkKeepsEvidence | core/release_evidence.py:326-417 | They do not change the evidence snapshot either |
| Approval.AllowSurvivesUnfinishedWork | core/release_gate_service.py:108-168 | So the gate decides the same while new evaluation work is under way |
| Approval.RequestOutcome | core/approval_service.py:499-615 | A request appends at most one decision, an approval only when approval is possible |
| Approval.EveryDecisionIsSound | core/approval_service.py:409-428 | In every history each stored decision is by an admin who is not the creator, and each approval records that all prerequisites were met and the evidence that was bound |
| Approval.EveryDecisionWasEarned | core/approval_service.py:499-615 | Each stored decision was asked for at some moment of the history and records the version, evidence and readiness of the session at that moment; each approval was possible then, without a blocker |
| Approval.ApprovalIsNeverRevived | core/approval_service.py:440-483 | Once a counted change follows an approval, at once or after any other changes, that approval is never effective again, whatever is restored later |
| Approval.ApprovalService.BuildReleaseReadiness | core/approval_service.py:209-363 | Builds the specified readiness |
| Approval.ApprovalService.CollectProgressBlockers | core/approval_service.py:226-300 | Appends the progress blockers in order |
| Approval.ApprovalService.RequestReleaseApproval | core/approval_service.py:499-615 | Appends, repeats or refuses as specified |
| ReleaseRequirements.BatchIffPassed | core/release_evidence.py:159-306 | A batch is selected exactly if some completed real-target experiment passed as a whole, each of its runs counting and every case that must pass having one, all said of the session; it is the newest such and its runs are those that matter |
| ReleaseRequirements.MayBeApprovedIff | core/approval_service.py:209-363 | Approval is possible exactly if the session meets every requirement, said of its state, actions, findings, evidence, treatments, cases, runs and calibrations: business, evaluated to the end, nothing stale, unparsed or open, severe failure modes on verified evidence and treated, high-risk nodes with cases, a declared deployment, and a passed batch |
| ReleaseRequirements.ChecksSayWhatHolds | core/approval_service.py:337-357 | Each of the checks a business session is shown holds exactly if what it is named after does, though three of them search the blocker codes |
| ReleaseRequirements.BlockersSayWhatIsMissing | core/approval_service.py:226-300 | Outside the evidence of the release itself each blocker is there exactly for what it names |
| ReleaseRequirements.EvidenceGapsAre | core/approval_service.py:126-175 | Each evidence blocker names a severe failure mode without evidence or a referenced piece of evidence that is not verified, and each such is named |
| ReleaseRequirements.EvidenceBlockersSayWhatIsMissing | core/release_evidence.py:437-473 | A missing deployment and each uncovered high-risk node are named, and what runs lack is named exactly without a batch |
| BoundEvidence.ApprovalStandsIff | core/approval_service.py:440-483 | An approval granted to a session stands in another exactly if the version is the same, everything it is bound to is as it was (batch, its runs and calibrations, treatments, severe findings, blocking actions, each as often), and every requirement is still met |
| BoundEvidence.RecalibrationEndsApproval | core/release_evidence.py:335-350 | Calibrating a run of the batch once more ends the approval, whatever the calibration says |
| BoundEvidence.ChangedRunEndsApproval | core/release_evidence.py:394-413 | So does any change of a batch run that its snapshot shows |
| BoundEvidence.RunsShowAlikeIff | core/release_evidence.py:394-413 | which is any but of its node, mode, kind, violated criteria and error message |
| BoundEvidence.ChangedTreatmentEndsApproval | core/release_evidence.py:352-372 | So does another treatment of a risk that must be treated |
| BoundEvidence.ChangedFindingEndsApproval | core/release_evidence.py:373-381 | So does a severe finding that is changed or added |
| BoundEvidence.ChangedActionEndsApproval | core/release_evidence.py:382-392 | So does a blocking action that is changed in what its snapshot shows, or added |
| BoundEvidence.GateAllowsIff | core/release_gate_service.py:108-168 | The gate allows a release exactly if the newest decision, the last stored among equals, is an approval of the current version and evidence and the session meets every requirement now |
| EvalRuns.AutoJudged | core/eval_judge.py:7-76 | The automatic judge yields failed or needs_review only, fails an unsuccessful or empty target run, and writes judge fields only |
| EvalRuns.JudgeEvalRun | core/eval_judge.py:7-76 | The branches write what the specification says; never a pass |
| EvalRuns.Concluded | core/eval_runner.py:295-345 | Concluding keeps the run's identity; a pass can only come from the model judge; an unsuccessful target run that completes is failed |
| EvalRuns.AutomaticPassIsTheModelJudges | core/eval_runner.py:83-111 | A run that ends as a pass on its own never touched the real target and was passed by a model judge allowed to decide |
| EvalRuns.PassesOnItsOwnIff | core/eval_runner.py:83-111 | A run ends as a pass on its own exactly if the model judge may decide and passes it, nothing was raised before, and it is a dry run, or a model run on an existing node whose non-empty answer is not failed by the automatic judge |
| EvalRuns.CalibrationKeepsInvariant | core/eval_judgment_service.py:166-256 | A calibration keeps the human-pass invariant |
| EvalRuns.StepKeepsInvariant | core/eval_runner.py:130-368 | Every run, calibration and other change keeps the human-pass invariant |
| EvalRuns.HumanPassHoldsInEveryHistory | core/eval_judgment_service.py:166-256 | In every history a passed target run is human-judged, completed, successful, non-empty, and its latest calibration is a pass with comment and reviewer |
| EvalRuns.PassedTargetRunLacksOnlyBindings | core/release_evidence.py:97-143 | Hence only version, case and deployment bindings can be held against it |
| EvalRuns.RunAndPassIsReleaseEvidence | core/eval_runner.py:130-368 | A successful run against the declared deployment, passed by a named reviewer with a basis, is release evidence at once |
| EvalRuns.RunIsMadeIff | core/eval_runner.py:130-164 | A case is run exactly if it exists, and against the target exactly if that is configured as declared |
| EvalRuns.RunFailsIff | core/eval_runner.py:212-345 | Every run ends, and ends as failed exactly without an answer or by a fault; a run by hand calls nothing and always completes |
| EvalRuns.FailsOnItsOwnIff | core/eval_judge.py:7-76 | A run ends with a failed verdict on its own exactly if an answer came and the target did not succeed, the answer is empty, a failure was predicted, or the model judge refuses |
| EvalRuns.RunIsBound | core/eval_runner.py:160-260 | Whatever becomes of a run, it is bound to the case, version and declared deployment it was started with, and shows exactly what came back |
| EvalRuns.RunIsListed | core/eval_runner.py:130-200 | A run that is made is listed after all others, of the version now current; without its node a model run fails |
| EvalRuns.CalibrationLeadsTo | core/eval_judgment_service.py:166-240 | A calibration is taken exactly from a named reviewer, and as a pass of a target run only if that succeeded, ended and answered, with a basis; it gives the one run the human verdict, appends itself, and changes nothing else |
| EvalRuns.EvalService.RunEvalCase | core/eval_runner.py:130-368 | Lists the run and updates it in place as specified, or refuses without change |
| EvalRuns.EvalService.CalibrateEvalRun | core/eval_judgment_service.py:166-256 | Calibrates as specified or refuses without change |
| Interrupts.ContinuationIsEarned | graph/transition_policy.py:37-117 | The whole table, kind by kind, as an if and only if: what continues (an edit only with content, structured where structure was missing), what only closes the action, what asks for a revision and what for an escalation |
| Interrupts.MarkResumedLeadsTo | graph/interrupts.py:220-260 | Marking resumed closes the pending record of the action, as resumed with the answer if the effect, or without one a plain resolution, lets the workflow go on, and else as cancelled; a closed record stays as it was, and no other is touched |
| Interrupts.MarkCancelledLeadsTo | graph/interrupts.py:263-301 | Marking cancelled closes the pending record with the reason given, else the note of the reviewer, else a general one |
| Interrupts.SyncOneLeadsTo | graph/interrupts.py:146-199 | Synchronising one action creates or refreshes its record, and closes a pending one exactly if the action is over without an approval |
| Interrupts.GateLeadsTo | graph/interrupt_gate.py:39-85 | The gate resumes the first awaited record with the value of the engine and consumes it at once, and touches no other |
| Interrupts.PutKeepsSound | graph/interrupts.py:106-143 | Storing a record that continues the stored one, or a new one, keeps one record per action and fixed identities |
| Interrupts.SyncKeepsSound | graph/interrupts.py:146-199 | Synchronisation keeps the records sound and moves each only along its life |
| Interrupts.MarkResumedKeepsSound | graph/interrupts.py:220-260 | Marking resumed moves only a pending record, or cancels it when the policy forbids |
| Interrupts.MarkCancelledKeepsSound | graph/interrupts.py:263-301 | Marking cancelled moves only a pending record |
| Interrupts.ConsumingKeepsSound | graph/interrupts.py:304-326 | Consuming writes the consumption time of exactly one resumed record |
| Interrupts.ConsumedOnlyOnce | graph/interrupts.py:304-326 | Marking a record consumed again, at whatever time, leaves the first time standing |
| Interrupts.SyncNeverResumes | graph/interrupts.py:146-199 | Generic synchronisation never resumes or consumes a record |
| Interrupts.SyncIsIdempotent | graph/interrupts.py:146-199 | Synchronising again at any later time changes nothing, even if action ids repeat |
| Interrupts.AwaitedIffAnOpenRecord | graph/interrupts.py:202-217 | For every list of actions, nothing is awaited after synchronisation exactly if it leaves every pending blocking action a closed record |
| Interrupts.AwaitedIffAnOpenReview | graph/interrupts.py:146-217 | The same in terms of the records before: each such action had a closed record, or shares its identifier with a blocking action whose synchronisation closes one |
| Interrupts.AwaitedIffOpenNow | graph/interrupts.py:202-217 | The pending interrupt is found exactly if such an action and record exist |
| Resumes.FailedResumeIsRetryable | graph/langgraph_interrupt_runner.py:240-252 | A missing or failing engine changes nothing but the synchronised records; a later success resumes exactly if it would have before |
| Resumes.NodeRunsIffEveryReviewIsClosed | graph/langgraph_interrupt_runner.py:100-111 | For every list of actions, repeated identifiers included, a turn runs a stage node exactly if synchronisation leaves every pending blocking action a closed record; otherwise the business state is unchanged |
| Resumes.NodeRunsIffReviewsWereClosed | graph/langgraph_interrupt_runner.py:100-111 | With distinct identifiers: exactly if every pending blocking action already had a closed record |
| Resumes.TurnLeadsTo | graph/langgraph_interrupt_runner.py:100-165 | Where a turn leads: what the node did if it ran, with its exception, and else nothing; no resume is logged, and the records are in step with the actions as they are then, unless the node raised |
| Resumes.ConsumeKeepsInvariant | graph/langgraph_interrupt_runner.py:168-252 | Consumption keeps the invariant: one acknowledgement per consumed record |
| Resumes.GateKeepsInvariant | graph/interrupt_gate.py:31-85 | The gate's resume keeps the invariant |
| Resumes.StepKeepsInvariant | graph/langgraph_interrupt_runner.py:142-252 | Every step of the execution layer keeps the invariant |
| Resumes.RecordsLiveSoundly | graph/interrupts.py:106-326 | Over all histories: one record per action, fixed locators, closing once; exactly one acknowledgement if consumed, else none; every engine resume answered an allowed, non-rejecting resolution at the current version |
| Resumes.AllowedResolutionIsConsumed | graph/langgraph_interrupt_runner.py:168-252 | A blocking action of the current version with an open record is resumed by one engine call exactly if its effect continues, it was resolved by anything but a rejection, and the engine works |
| Resumes.ConsumeSendsIff | graph/langgraph_interrupt_runner.py:168-252 | What is sent to the engine: exactly a resumed, unconsumed record that agrees with action, version and thread in every locator, of an action resolved by anything but a rejection, with a value that says to continue for this action and decision, by a working engine; it alone is then consumed |
| Resumes.EveryResumeWasAnswered | graph/transition_policy.py:37-117 | Over every history whose resumes are marked with the table's answer: each resume sent to the engine had been answered as its kind of action asks; none ever answers an edit without content |
| Resumes.UnsendableIsNeverConsumed | graph/langgraph_interrupt_runner.py:186-214 | A record resumed with a value that does not say to continue, or that is a rejection, is never consumed by any later history |
| Resumes.MarkingWithoutPolicyIsStuck | graph/interrupts.py:45-52 | Marking a plainly resolved action resumed with the default argument, no policy effect, which no caller in the repository uses, creates such a record |
| Resumes.RejectedEvidenceIsStuck | graph/transition_policy.py:51-54 | An evidence question dismissed by rejecting it is resumed by policy, with a value that is never sent |
| Resumes.RejectedEvidenceIsResumedButNotSent | graph/transition_policy.py:51-54 | In every later history its record stays resumed and unconsumed and the engine has acknowledged nothing for it |
| ResumeOutbox.QueueKeepsRowsSound | storage/backends/sqlite_store.py:1637-1665 | Queueing keeps both keys of the outbox unique and a completed row completed |
| ResumeOutbox.QueueLeadsTo | storage/backends/sqlite_store.py:1637-1665 | Queueing is refused exactly for a new action under an interrupt queued for another; else the row of the action is open, unless completed, under the interrupt queued first, and no other row is touched |
| ResumeOutbox.RetryLeadsTo | core/execution_service.py:48-78 | What one retry leads to: skipped exactly for a missing, completed or freshly claimed row; completed exactly if nothing fails on the way; else failed, or still claimed if the process died; and the session is saved as consumed exactly if the save was reached and worked |
| Timestamps.DateOfIsItsDay | storage/backends/sqlite_store.py:1667-1683 | The date of a day is the one that many days after the first of 1970 by the rule of the Gregorian calendar, leap years included |
| Timestamps.TextsCompareDays | storage/backends/sqlite_store.py:1667-1683 | The database text of a time is less than the service text of another exactly if its day is not later, whatever the clocks show: in text the blank comes before the letter |
| ResumeOutbox.AbandonedIsADayComparison | storage/backends/sqlite_store.py:1667-1683 | So a claim is never kept longer than the timeout, but is given up early exactly if five minutes ago was the day of the claim |
| ResumeOutbox.SweepBalances | core/execution_service.py:20-79 | In every sweep claimed equals completed plus failed, plus the one during which the process died if it did, and does not exceed found |
| ResumeOutbox.SummaryCountsAttempts | core/execution_service.py:20-79 | The summary counts the attempts of the sweep: all that claimed their row, those completed and those that failed |
| ResumeOutbox.RetryKeepsBalance | core/execution_service.py:48-78 | One retry, also one cut short by a crash, keeps sends equal to remembered plus lost |
| ResumeOutbox.BooksAreKept | core/execution_service.py:20-79 | Any number of sweeps, crashes, saved or unsaved work of other services and queueings keep the books and the record invariant of every session |
| ResumeOutbox.SendsAreConsumptionsPlusLostSaves | core/execution_service.py:20-79 | A resume was acknowledged once if the saved record is consumed, plus once per acknowledgement that was not saved, for a failed save or a crash; so a consumed record was resumed exactly once if and only if none was lost |
| ResumeOutbox.RetryLosesIff | core/execution_service.py:48-78 | Given that the engine acknowledges a retry, the acknowledgement is lost exactly if the process dies after the send, the save fails, or the row stands for another record than the one consumed |
| ResumeOutbox.LostIff | core/execution_service.py:20-79 | Over any history acknowledgements are lost exactly if some change meets one of these guards |
| ResumeOutbox.SentAsRememberedIffNoGuardFails | core/execution_service.py:20-79 | Every resume is acknowledged as often as the saved sessions remember, which is once for a consumed record and else never, if and only if no change meets one of these guards |
| ResumeOutbox.RequeuedRowKeepsItsInterrupt | storage/backends/sqlite_store.py:1637-1665 | An action queued again under another interrupt keeps the row of the first |
| ResumeOutbox.MismatchedRowSendsEveryTime | core/execution_service.py:54-64 | Such a row is never completed: every retry sends again although every save works, and nothing is saved |
| ResumeOutbox.LostSaveIsResumedAgain | core/execution_service.py:66-78 | A save that fails after a send makes the next retry resume a second time |
| ResumeOutbox.CrashAfterSendIsResumedAgain | core/execution_service.py:48-78 | So does a crash after the send, once the claim is given up |
| ResumeOutbox.CompletedRowIsLeftAlone | storage/backends/sqlite_store.py:1637-1684 | A completed row is neither reopened by queueing its action nor retried, and nothing is sent for it |
| ResumeOutbox.ResumeService.ReconcilePendingInterruptResumes | core/execution_service.py:20-79 | The sweep loop leaves the specified store and a balanced summary, or the specified store of a process that died |
| Execution.PreparedKeepsSound | core/execution_service.py:146-179 | Preparing any list of resolutions opens and closes records only as their life allows |
| Execution.PreparedSettles | core/execution_service.py:146-179 | Preparing a list of resolutions closes the record of each decided blocking action that is listed, as it was or else resumed exactly if the decision table continues, and touches no other |
| Execution.ExecutionContext.EnsureRecordForAction | graph/interrupts.py:106-143 | Creates or refreshes exactly the action's record |
| Execution.ExecutionContext.SyncInterruptRecords | graph/interrupts.py:146-199 | The loop leaves the specified records and returns exactly the created ones |
| Execution.ExecutionContext.GetPendingBlockingInterrupt | graph/interrupts.py:202-217 | Returns the first awaited record after synchronising, and none exactly if none is awaited |
| Execution.ExecutionContext.MarkInterruptResumedFromAction | graph/interrupts.py:220-260 | Marks in place as specified |
| Execution.ExecutionContext.MarkInterruptCancelledFromAction | graph/interrupts.py:263-301 | Marks in place as specified |
| Execution.ExecutionContext.MarkInterruptResumeConsumed | graph/interrupts.py:304-326 | Writes the consumption time once |
| Execution.ExecutionContext.ReviewInterruptGate | graph/interrupt_gate.py:39-85 | Resumes and consumes the awaited record, as specified |
| Execution.ExecutionContext.ConsumeResumableInterruptIfNeeded | graph/langgraph_interrupt_runner.py:168-252 | Consumes as specified; the business state is unchanged |
| Execution.ExecutionContext.InvokeOneTurn | graph/langgraph_interrupt_runner.py:100-165 | One guarded turn, though it synchronises several times |
| Execution.ExecutionContext.PrepareResolution | core/execution_service.py:161-178 | One resolved action is marked resumed if its effect continues, else cancelled, as specified |
| Execution.ExecutionContext.PrepareExecutionAfterActionResolutions | core/execution_service.py:146-179 | The loop maps each resolution as specified |
| Projection.ComputeState | storage/projection_state.py:59-72 | The loop fills in the state of every collection |
| Projection.PlanSync | storage/projection_state.py:75-87 | The loop fills in the plan of every collection |
| Projection.ShortcutOnlyForPrefix | storage/projection_state.py:104-111 | The append shortcut is taken only if the old list is a prefix, for collections that drop a front block and append fresh items |
| Projection.PlannedSaveIsFullSave | storage/projection_state.py:90-111 | Carrying out the plan yields the collection, whatever was stored short of a lie |
| Projection.PlanWritesOnlyWhatIsNew | storage/projection_state.py:90-111 | The plan writes nothing of an unchanged collection, exactly the new tail of a grown log, and the whole of what changed otherwise |
| Projection.SecondSaveWritesNothing | storage/projection_state.py:75-87 | A save right after a save of the same data skips every collection, whatever was stored before |
| Projection.ShortcutIsRightIffPrefix | storage/projection_state.py:104-111 | Without that discipline the shortcut is right exactly if the old list is a prefix |
| Projection.SaveMirrors | storage/projection_state.py:75-87 | One save of all collections leaves every table equal to its collection |
| Projection.DifferentialSavesMirror | storage/projection_state.py:1-11 | So does each save in every history of saves and of lost or damaged state |
| Projection.UpsertTwice | storage/backends/sqlite_store.py:741-750 | Replacing the same rows twice is replacing them once, also with repeated ids |
| Projection.TailWriteIsFullWriteIffFrontPresent | storage/backends/sqlite_store.py:821-832 | Inserting from a position equals inserting from the front exactly if the front is in the table |
| Projection.PlannedWriteIsFullWrite | storage/backends/sqlite_store.py:1263-1347 | The SQL writer with a plan leaves the table it would leave without one |
| Projection.WriteKeepsWritten | storage/backends/sqlite_store.py:1263-1347 | What a write stores describes what its table then holds |
| Projection.PlannedTableIsFullTable | storage/backends/sqlite_store.py:1263-1347 | Over every history of writes and spoilt entries the planned table is the one full writes would have left |
| Projection.TableIsCollectionIffNothingRemoved | storage/backends/sqlite_store.py:741-750 | The writer never deletes, so a table equals its collection exactly if no row was ever removed from it |
| RedTeams.EveryNameableNeedIsServed | core/redteam_service.py:193-287 | After generation each need that can be named has an active case |
| RedTeams.NeedsAreExact | core/redteam_service.py:193-287 | Exactly what calls for a case: a severe finding of the stage that was not dismissed, a severe failure mode on each node that addresses it or on none, and a node with a weak review |
| RedTeams.GeneratedCasesAreNeeded | core/redteam_service.py:193-287 | Generation keeps every case, and each one it adds is an unlinked draft for a need that no active case answered before |
| RedTeams.SecondGenerationCreatesOnlyUnnamed | core/redteam_service.py:193-287 | A second generation creates one case per need with empty identifiers and nothing else; so nothing exactly if all can be named |
| RedTeams.CoverTargets | core/redteam_service.py:80-97 | Generation gives a node a case exactly if it had one or some need is about it |
| RedTeams.NeedsAboutNode | core/redteam_service.py:48-65 | Some need is about a node exactly if it addresses a severe mode or is weakly reviewed |
| RedTeams.MissingNodesAfterGeneration | core/redteam_service.py:425-450 | After generation a node is still reported missing exactly if its id is empty, or it is high-risk by policy alone and had no case |
| RedTeams.MissingFindingsAfterGeneration | core/redteam_service.py:438-447 | After generation the findings reported missing are exactly the eligible ones without an id |
| RedTeams.LabStepKeepsLinks | core/redteam_service.py:290-386 | Generate, create, approve, reject and sync keep one EvalCase per linked case |
| RedTeams.EachCaseYieldsAtMostOneEvalCase | core/redteam_service.py:335-386 | In every history each case has exactly one EvalCase if linked and none otherwise |
| RedTeams.SyncTwiceIsOnce | core/redteam_service.py:335-386 | Syncing again changes nothing |
| RedTeams.DecisionsLeadTo | core/redteam_service.py:290-332 | Approving fails exactly for a rejected or unknown case, rejecting exactly for an unknown one; each sets the status of that case and nothing else |
| RedTeams.SyncLeadsTo | core/redteam_service.py:335-386 | A case is synced exactly if it was approved or synced; it then has an EvalCase, a new one exactly if the linked one is missing |
| RedTeams.DatasetClosesSyncedGap | core/redteam_service.py:389-422 | The default data set can be built exactly if some case is synced, and then no synced case is outside one |
| RedTeams.DatasetIs | core/redteam_service.py:389-422 | The data set lists the EvalCases of exactly the synced cases, each once, beside the data sets there were |
| RedTeams.SummaryIsClearIff | core/redteam_service.py:425-502 | The summary does not block exactly if every severe finding and every high-risk node has an active case, and every case is rejected, a draft that is not severe, linked if approved, or synced to an existing EvalCase in a red-team data set |
| RedTeams.OnlyGapsBlockOnceSynced | core/redteam_service.py:425-502 | Once every case that is not rejected is synced and grouped, the summary blocks only on the gaps generation could not close |
| RedTeams.RedTeamService.GenerateRedTeamCases | core/redteam_service.py:193-287 | The three loops leave the specified cases and return the new ones |
| RedTeams.RedTeamService.CoverModes | core/redteam_service.py:223-247 | The nested loop over modes and nodes |
| RedTeams.RedTeamService.ApproveRedTeamCase | core/redteam_service.py:290-311 | Approves in place as specified; a rejected case stays rejected |
| RedTeams.RedTeamService.RejectRedTeamCase | core/redteam_service.py:314-332 | Rejects in place as specified |
| RedTeams.RedTeamService.CreateRedTeamDataset | core/redteam_service.py:389-422 | Appends the specified data set or refuses without change |
| RedTeams.RedTeamService.RedTeamCaseToEvalCase | core/redteam_service.py:335-386 | Syncs as specified and returns an existing EvalCase |
| EvalDatasets.DedupeMembers | core/eval_dataset_service.py:11-12 | Deduplication keeps exactly the non-empty ids |
| EvalDatasets.DedupeIsDistinct | core/eval_dataset_service.py:11-12 | and each once |
| TraceBackfill.OwnTraceIsNotEligible | core/trace_backfill_service.py:129-138 | The traces the service appends itself are not eligible |
| TraceBackfill.EligibleIff | core/trace_backfill_service.py:17-28 | A trace is eligible exactly for an error, a parser status that means failure, or a safety status other than those that mean nothing wrong, in upper or lower case |
| TraceBackfill.ListedIdsAre | core/trace_backfill_service.py:155-161 | With explicit identifiers exactly the traces that exist are taken |
| TraceBackfill.ConvertingAddsOneEach | core/trace_backfill_service.py:79-143 | Converting any list adds exactly one case per uncovered trace, nothing else, and makes nothing new eligible |
| TraceBackfill.BackfillCovers | core/trace_backfill_service.py:146-202 | After a backfill every eligible trace has a case, exactly one if it had none, and the eligible traces are the same |
| TraceBackfill.GateReadyIs | core/trace_backfill_service.py:205-249 | What the summary's gate_ready means |
| TraceBackfill.BackfillGroups | core/trace_backfill_service.py:169-191 | Which cases are in a trace data set after a backfill |
| TraceBackfill.BackfillLeadsTo | core/trace_backfill_service.py:146-202 | A backfill is refused exactly if no trace is selected; else it adds one tagged data set of exactly the cases of the selected traces, each once, and removes nothing |
| TraceBackfill.GateReadyAfterBackfill | core/trace_backfill_service.py:205-249 | After a backfill the gate is ready exactly if no eligible trace lacks an id and every case made from a trace is grouped now or before |
| TraceBackfill.GateReadyIffOldCasesAreGrouped | core/trace_backfill_service.py:205-249 | With unique ids and one case per trace: exactly if no eligible trace lacks an id and the earlier cases of non-eligible traces are in a trace data set |
| TraceBackfill.SecondBackfillCreatesNothing | core/trace_backfill_service.py:146-202 | A second backfill creates no case |
| TraceBackfill.TraceService.ConvertTraceToEvalCase | core/trace_backfill_service.py:79-143 | Converts, or returns the existing case, or refuses an unknown trace without change |
| TraceBackfill.TraceService.SelectTraces | core/trace_backfill_service.py:155-161 | The loop selects the eligible traces, or the listed ones |
| TraceBackfill.TraceService.ConvertSelected | core/trace_backfill_service.py:163-166 | The loop gathers the case of each selected trace, though converting appends traces |
| TraceBackfill.TraceService.CreateDatasetFromFailedTraces | core/trace_backfill_service.py:146-202 | Backfills as specified, or refuses without change |
| EvalMetrics.CountsAreConserved | core/eval_metrics_service.py:24-122 | Scenario and node counts each sum to the runs; automated plus human is the runs; critical plus high failures do not exceed failures; the verdicts add up |
| EvalMetrics.EntriesMeanWhatTheySay | core/eval_metrics_service.py:52-54 | Each scenario entry and each node entry counts exactly its runs, and is there exactly if there is one |
| EvalMetrics.ComputeTally | core/eval_metrics_service.py:51-83 | The counting loop computes the tally |
| EvalMetrics.MetricsMeanWhatTheySay | core/eval_metrics_service.py:24-122 | Every figure counts what it is named after over the runs of the experiment: verdicts, errors, failures by their worst mode, parser errors, and costs and latencies of the runs that have them |
| EvalMetrics.MetricsNameCases | core/eval_metrics_service.py:116-117 | The metrics name exactly the failed cases and exactly those left to review, each once |
| EvalMetrics.DisagreementsAre | core/eval_metrics_service.py:84-97 | The disagreement figures count the calibrations of the experiment that disagree among those that can be compared |
| EvalMetrics.SeverityIs | core/eval_metrics_service.py:14-17 | The last failure mode listed under an identifier decides its severity |
| EvalMetrics.ThresholdChecksAgree | core/eval_comparison_service.py:29-66 | For every rounding of the platform, the gate's own threshold check adds nothing to the stored reasons, and both flag exactly the worse experiment |
| EvalMetrics.RoundingDecidesOnlyAtTheThreshold | core/eval_comparison_service.py:29-66 | A fall of the exact pass rate beyond five points by more than four roundings is flagged, one short of it by as much is not |
| EvalMetrics.FallOfFivePointsIsFlagged | core/eval_comparison_service.py:29-66 | 19 of 20 after 20 of 20, exactly five points, is flagged in binary64 although it does not exceed the threshold |
| EvalMetrics.LatestCurrentIsNewest | core/eval_regression_policy.py:92-109 | The experiment decided on is the newest of the data set other than the baseline |
| EvalMetrics.LatestCurrentIsFirst | core/eval_regression_policy.py:92-109 | and the first listed of those equally new |
| EvalMetrics.GatePassesIff | core/eval_regression_policy.py:138-321 | A relevant data set passes exactly if it has cases, a baseline, and its newest other experiment completed exactly its cases with a clean comparison |
| EvalMetrics.DecisionSaysWhy | core/eval_regression_policy.py:138-321 | The decision names the first thing that is not in order, in this order, blocks exactly for that, and is severe exactly for a regression with more critical failures |
| EvalMetrics.StoredComparisonDecides | core/eval_regression_policy.py:276-321 | On a comparison the service stored, the gate blocks exactly if the experiment is worse, for every rounding |
| EvalMetrics.DecisionIgnoresComparedBaseline | core/eval_regression_policy.py:255-321 | For every list, data set and stored comparison, replacing the baseline the comparison was made with leaves the decision as it is |
| EvalMetrics.OwnBaselineComparisonDecides | core/eval_regression_policy.py:255-321 | If the comparison names the data set's baseline and was made from the metrics both experiments have now, the gate blocks exactly if the experiment is worse than that baseline |
| EvalMetrics.OtherBaselineMayHideARegression | core/eval_regression_policy.py:255-321 | For every other baseline some session passes on a comparison the service made with it, although the experiment is worse than the data set's own |
| EvalMetrics.MetricsService.ComputeExperimentMetrics | core/eval_metrics_service.py:24-124 | Computes and stores the specified metrics, cost, latency and calibration figures among them, or refuses an unknown experiment without change |
| EvalMetrics.MetricsService.CompareExperiments | core/eval_comparison_service.py:17-71 | Computes and stores both metrics and the specified comparison with all its deltas, detecting exactly the worse experiment, or refuses an unknown experiment |
| FieldSecurity.ValueRoundTrip | storage/field_security.py:87-114 | A value survives storing and loading exactly if it was not marked, or nothing is ever decrypted |
| FieldSecurity.LoadingIsFailClosed | storage/field_security.py:97-114 | Marked text is never handed out as it is, unless nothing is ever decrypted |
| FieldSecurity.JsonRoundTrip | storage/field_security.py:117-136 | The same for payloads of any depth |
| FieldSecurity.EncryptJsonTwice | storage/field_security.py:117-125 | Encrypting a payload twice is encrypting it once |
| FieldSecurity.StoredFieldsLoad | storage/field_security.py:185-359 | Every field comes back exactly if no encrypted leaf carried the mark, or nothing is ever decrypted; demo sessions included |
| FieldSecurity.EncryptionIsIdempotent | storage/field_security.py:185-265 | Encrypting an encrypted record changes nothing |
| FieldSecurity.DemoIsStoredUnchanged | storage/field_security.py:190-193 | Demo data, and all data without a key, is stored unchanged |
| FieldSecurity.NothingIsStoredInTheClear | storage/field_security.py:185-265 | With a key and short of demo data no user text is stored in the clear, in no field and at no depth of a payload; evidence that is not user material is stored as it is |
| FieldSecurity.StoredContext.EncryptFieldsForStorage | storage/field_security.py:185-265 | Rewrites the record in place to the specified one |
| FieldSecurity.StoredContext.DecryptFieldsAfterLoad | storage/field_security.py:268-359 | Restores the record in place, or refuses exactly if some leaf cannot be decrypted |
| FieldSecurity.BackfillRestoresGoal | storage/goal_backfill.py:50-103 | Encrypting a stored goal and decrypting it restores the row; in between it verifies and is not encrypted again |
| FieldSecurity.GoalIsWrittenIff | storage/goal_backfill.py:50-103 | A row is written exactly if its goal was encrypted or decrypted, and then only the goal; which of the outcomes it is, for every row and mode; failing writes nothing |
| FieldSecurity.VerifiedMeansDecryptableIffNotLenient | storage/goal_backfill.py:74-92 | A verified goal decrypts to something else exactly if ciphertext is ever decrypted at all |

## Left out

- Elements of a session's lists (actions, runs, cases, treatments, records) are values inside the object that owns the list, so aliasing between such elements is not captured.
- Audit events, chat messages, notes for display, and texts of prompts, reports and most errors; judge reasons are modelled as which sentence was written, policy messages as one sentence.
- Release blockers about progress (completion, staleness, pending actions, parser errors, open findings) carry their code, not their text or first offender.
- Gate rules other than missing output, stale dependency, action state, parser error and the final rule over these in the earlier stages are a number of further blockers that ranges over all values.
- Risk assessment, coverage policy and gate policy enter as given values, among them whether the tier is the lowest.
- Text heuristics (parser mentions, weak review texts, trace scenarios, stage parsing, safety scans) enter as given values.
- White space is blank, tab, newline and carriage return; lower-casing is ASCII; strings are not normalised.
- Floating point is real numbers with the platform's rounding and summation of lists as parameters; which operation rounds is modelled, how it rounds is assumed only where a lemma says so.
- Whether a calibration agrees with the judge is a given value in the metrics.
- EvalRuns.EvalService.CalibrateEvalRun: closing the pending action of the run belongs to action resolution, which is not part of this model; histories allow it as another change after the calibration.
- ResumeOutbox.Retry: one sweep at a time; two workers that hold the same abandoned claim are not interleaved, and the queue is SQLite's: PostgreSQL compares times as times.
- Projection.PlannedWriteIsFullWrite: column encryption by classification, other sessions in the same table and the PostgreSQL writer are not modelled.
- Projection.DifferentialSavesMirror: damage loses or spoils stored entries; a forged but well-formed entry is excluded.
- FieldSecurity.StoredContext.DecryptFieldsAfterLoad: column-level encryption of projection rows and key rotation are not part of the record.
- `sync_execution_after_action_resolution` composes the marking, claiming, consuming and completing steps proved here and is not a member of its own.
- LangGraph's checkpoint contents are discarded by the code on resume and are not modelled; a stage run inside a turn is the model's own turn.
- Configuration, HTTP routes, authentication, schedulers, retention, caches, migrations and the front end: plumbing with easy or operational claims only.
- Opening and closing of safety findings, evidence verification and action resolution internals: other services, allowed to make any change between the steps proved here.
