/** The mutable session object: each operation updates its fields as the services do, proved against `Lineage` and `Workflow`. */
module Session {
  import opened Prelude
  import opened Models
  import opened Lineage
  import opened Workflow

  class ProjectContext {
    var currentState: WorkflowState
    var lastError: string
    var pendingInput: string
    var stageOutputs: set<Stage>
    var stageOutputVersions: map<Stage, int>
    var stageDependencyVersions: map<Stage, map<Stage, int>>
    var stageStaleness: map<Stage, StaleMark>
    var parserErrors: map<Stage, string>
    var pendingActions: seq<HumanAction>
    var reviewNotes: map<Stage, string>
    var iterationCount: int

    constructor ()
      ensures View() == FRESH
    {
      currentState, lastError, pendingInput := Init, "", "";
      stageOutputs, stageOutputVersions := {}, map[];
      stageDependencyVersions, stageStaleness, parserErrors := map[], map[], map[];
      pendingActions, reviewNotes, iterationCount := [], map[], 0;
    }

    function View(): Project
      reads this
    {
      Project(currentState, lastError, pendingInput, stageOutputs, stageOutputVersions, stageDependencyVersions,
              stageStaleness, parserErrors, pendingActions, reviewNotes, iterationCount)
    }

    method BumpStageOutputVersion(stage: Stage) returns (version: int)
      modifies this
      ensures View() == old(View()).(versions := BumpVersion(old(stageOutputVersions), stage))
      ensures version == stageOutputVersions[stage]
    {
      version := (if stage in stageOutputVersions then stageOutputVersions[stage] else 0) + 1;
      stageOutputVersions := stageOutputVersions[stage := version];
    }

    method RecordStageDependencyVersions(stage: Stage) returns (dependencies: map<Stage, int>)
      modifies this
      ensures View() == RecordDependencies(old(View()), stage)
      ensures dependencies == UpstreamVersions(old(stageOutputVersions), stage)
    {
      dependencies := map u: Stage | 1 <= u < stage :: CurrentVersion(stageOutputVersions, u);
      stageDependencyVersions := stageDependencyVersions[stage := dependencies];
      stageStaleness := stageStaleness - {stage};
    }

    /** Returns how many actions were superseded. */
    method SupersedeActionsForStage(stage: int, reason: string, author: string) returns (count: nat)
      modifies this`pendingActions
      ensures pendingActions == SupersedeActions(old(pendingActions), stage, reason, author)
      ensures count == CountToSupersede(old(pendingActions), stage)
    {
      count := 0;
      ghost var before := pendingActions;
      for i := 0 to |pendingActions|
        invariant |pendingActions| == |before|
        invariant forall j :: 0 <= j < i ==> pendingActions[j] == SupersedeOne(before[j], stage, reason, author)
        invariant forall j :: i <= j < |before| ==> pendingActions[j] == before[j]
        invariant count == CountToSupersede(before[..i], stage)
      {
        assert before[..i + 1][..i] == before[..i];
        var a := pendingActions[i];
        if ShouldSupersede(a, stage) {
          pendingActions := pendingActions[i := a.(status := Superseded, note := reason, supersededBy := author)];
          count := count + 1;
        }
      }
      assert before[..|before|] == before;
    }

    /** Flags one downstream stage, if it has anything to invalidate. */
    method MarkDownstreamStale(changed: Stage, downstream: Stage, reason: string, author: string) returns (marked: bool)
      modifies this
      ensures marked <==> HasState(old(View()), downstream)
      ensures View() == if marked then MarkStale(old(View()), changed, downstream, reason, author) else old(View())
    {
      marked := HasState(View(), downstream);
      if !marked { return; }
      var recorded := if downstream in stageDependencyVersions then stageDependencyVersions[downstream] else map[];
      var upstream := map u: Stage | 1 <= u < downstream :: CurrentVersion(stageOutputVersions, u);
      var mark := StaleMark(true, changed, reason, downstream in stageOutputs, recorded, upstream);
      stageStaleness := stageStaleness[downstream := mark];
      parserErrors := parserErrors - {downstream};
      var _ := SupersedeActionsForStage(downstream, "Downstream stage marked stale: " + reason, author);
    }

    /** Flags the downstream stages that have anything to invalidate, and returns them in order. */
    method FlagDownstream(changed: Stage, reason: string, author: string) returns (staleKeys: seq<int>)
      modifies this
      ensures View() == Invalidate(old(View()), changed, reason, author)
      ensures staleKeys == StatefulStages(old(View()), changed + 1)
    {
      staleKeys := [];
      ghost var before := View();
      ghost var after, keys := Invalidate(before, changed, reason, author), StatefulStages(before, changed + 1);
      for downstream := changed + 1 to 5
        invariant InvalidateFrom(View(), changed, downstream, reason, author) == after
        invariant staleKeys + StatefulStages(View(), downstream) == keys
      {
        ghost var now := View();
        var marked := MarkDownstreamStale(changed, downstream, reason, author);
        InvalidateUnfolds(now, View(), changed, downstream, reason, author);
        Regroup(staleKeys, if marked then [downstream] else [], StatefulStages(View(), downstream + 1));
        if marked { staleKeys := staleKeys + [downstream]; }
      }
    }

    /** Raises on a stage outside 1..4. */
    method InvalidateDownstreamStages(changed: int, reason: string, author: string)
      returns (raised: bool, staleKeys: seq<int>)
      modifies this
      ensures raised <==> !(1 <= changed <= 4)
      ensures raised ==> View() == old(View())
      ensures !raised ==> View() == Invalidate(old(View()), changed, reason, author)
      ensures !raised ==> staleKeys == StatefulStages(old(View()), changed + 1)
    {
      if !(1 <= changed <= 4) { return true, []; }
      staleKeys := FlagDownstream(changed, reason, author);
      raised := false;
    }

    method ReviseStage(stage: int, reason: string, note: string, author: string) returns (raised: bool)
      modifies this
      ensures Outcome(View(), raised) == Revise(old(View()), stage, reason, note, author)
    {
      var _ := SupersedeActionsForStage(stage, reason, author);
      var keys;
      raised, keys := InvalidateDownstreamStages(stage, reason, author);
      if raised { return; }
      currentState := Running(stage);
      reviewNotes := reviewNotes[stage := "revise: " + note];
      iterationCount := iterationCount + 1;
    }

    method RollbackStage(from: int, to: int, reason: string, targetRunning: bool, author: string) returns (raised: bool)
      modifies this
      ensures Outcome(View(), raised) == Rollback(old(View()), from, to, reason, targetRunning, author)
    {
      if to < 0 || to >= from { return true; }
      ghost var before := View();
      for stage := to + 1 to from + 1
        invariant View() == before.(actions := pendingActions)
        invariant SupersedeRange(pendingActions, stage, from, reason, author)
                  == SupersedeRange(before.actions, to + 1, from, reason, author)
      {
        var _ := SupersedeActionsForStage(stage, reason, author);
      }
      if to >= 1 {
        var keys;
        raised, keys := InvalidateDownstreamStages(to, reason, author);
        if raised { return; }
      }
      if to == 0 {
        currentState := Init;
      } else if targetRunning {
        currentState := Running(to);
      } else {
        currentState := Review(to);
      }
      iterationCount := 0;
      raised := from > 4;
    }

    /** Count the output just made, record its upstream versions and flag everything downstream. */
    method CommitStageOutput(stage: Stage, reason: string, author: string)
      modifies this
      ensures View() == CommitOutput(old(View()), stage, reason, author)
    {
      var _ := BumpStageOutputVersion(stage);
      var _ := RecordStageDependencyVersions(stage);
      var _, _ := InvalidateDownstreamStages(stage, reason, author);
    }

    method NodeInit(intake: Intake)
      modifies this
      ensures View() == Workflow.NodeInit(old(View()), intake)
    {
      match intake
      case IntakeFailed(error) =>
        lastError := error;
        currentState := Init;
      case Collected =>
        currentState := Running(1);
      case Incomplete =>
        currentState := Init;
    }

    method NodeStageRunning(stage: Stage, run: Execution) returns (raised: bool)
      modifies this
      ensures Outcome(View(), raised) == RunStage(old(View()), stage, run)
    {
      match run
      case ModelFailed(error, placeholder, reRaised) =>
        if stage == 1 && placeholder { stageOutputs := stageOutputs + {1}; }
        lastError := error;
        currentState := Running(stage);
        raised := reRaised;
      case Produced(parserError, created, gateError) =>
        stageOutputs := stageOutputs + {stage};
        parserErrors := PutParserError(parserErrors, stage, parserError);
        CommitStageOutput(stage, "regenerated", "");
        pendingActions := pendingActions + created;
        if gateError.Some? {
          lastError := gateError.value;
          currentState := Running(stage);
        } else {
          currentState := Review(stage);
        }
        raised := false;
    }

    /** A structured edit applied by a resolved review action. */
    method EditStageOutput(stage: Stage, parserError: Option<string>, actionId: string, created: seq<HumanAction>)
      modifies this
      ensures View() == EditOutput(old(View()), stage, parserError, actionId, created)
    {
      stageOutputs := stageOutputs + {stage};
      parserErrors := PutParserError(parserErrors, stage, parserError);
      CommitStageOutput(stage, "edited", actionId);
      var _ := SupersedeActionsForStage(stage, "edited", actionId);
      pendingActions := pendingActions + created;
    }

    method AdvanceStageIfReady(stage: Stage, gate: GateView) returns (advanced: bool, raised: bool)
      modifies this
      ensures Advance(View(), advanced, raised) == AdvanceStage(old(View()), stage, gate)
    {
      if gate.persistenceFails { return false, true; }
      if Blocked(currentState) { return false, false; }
      if !GateClear(View(), stage, gate) { return false, false; }
      currentState := NextState(stage);
      reviewNotes := reviewNotes[stage := "approved"];
      return true, false;
    }

    method NodeStageReview(stage: Stage, t: Turn) returns (raised: bool)
      modifies this
      ensures StepResult(View(), raised) == Workflow.NodeStageReview(old(View()), stage, t)
    {
      raised := false;
      match t.reply
      case Approve =>
        var advanced;
        advanced, raised := AdvanceStageIfReady(stage, t.gate);
      case ReviseWith(note) =>
        var _ := ReviseStage(stage, "review", note, "");
      case Back =>
        var _ := RollbackStage(stage, stage - 1, "review", false, "");
      case BackToDesign =>
        if stage == 3 { var _ := RollbackStage(3, 2, "review", true, ""); }
      case NotUnderstood =>
    }

    method MarkInvalidState()
      modifies this
      ensures View() == MarkInvalid(old(View()))
    {
      lastError := "invalid workflow state: " + StateName(currentState);
      currentState := RecoveryRequired;
    }

    method MarkWorkflowError(reason: string)
      modifies this
      ensures View() == MarkError(old(View()), reason)
    {
      currentState := Failed;
      lastError := reason;
    }

    method RecoverWorkflow(target: string) returns (r: Result<WorkflowState, RecoveryError>)
      modifies this
      ensures match Recover(old(View()), target)
              case Ok(q) => r == Ok(q.state) && View() == q
              case Err(e) => r == Err(e) && View() == old(View())
    {
      r := ResolveTarget(target);
      if r.Err? { return; }
      if !Blocked(currentState) && !currentState.Unknown? { return Err(NotBlocked); }
      currentState := r.value;
      lastError := "";
    }

    /** Exactly one node per turn, and none in a complete, blocked, unknown or node-less state. */
    method RunOneStep(t: Turn) returns (raised: bool)
      modifies this
      ensures StepResult(View(), raised) == Workflow.RunOneStep(old(View()), t)
    {
      raised := false;
      pendingInput := "";
      match currentState
      case Init => NodeInit(t.intake);
      case Running(stage) => raised := NodeStageRunning(stage, t.run);
      case Review(stage) => raised := NodeStageReview(stage, t);
      case Complete =>
      case Failed =>
      case RecoveryRequired =>
      case Iterating => MarkInvalidState();
      case Unknown(_) => MarkInvalidState();
    }
  }
}
