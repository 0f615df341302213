/**
  The fail-closed workflow: which states run a node, what the stage gate requires before a stage is
  left upward, and what therefore holds in every history of turns, edits, requests and other work.
 */
module Workflow {
  import opened Prelude
  import opened Models
  import opened Lineage

  // ----- states -----------------------------------------------------------

  function StateName(s: WorkflowState): string
  {
    match s
    case Init => "init"
    case Running(k) => "s" + Digit(k) + "_running"
    case Review(k) => "s" + Digit(k) + "_review"
    case Iterating => "iterating"
    case Complete => "complete"
    case Failed => "error"
    case RecoveryRequired => "recovery_required"
    case Unknown(raw) => raw
  }

  function Digit(k: Stage): string
  {
    if k == 1 then "1" else if k == 2 then "2" else if k == 3 then "3" else "4"
  }

  const KNOWN_STATES: seq<WorkflowState> :=
    [Init, Running(1), Review(1), Running(2), Review(2), Running(3), Review(3), Running(4), Review(4),
     Iterating, Complete, Failed, RecoveryRequired]

  function ParseFrom(raw: string, candidates: seq<WorkflowState>): WorkflowState
  {
    if candidates == [] then Unknown(raw)
    else if StateName(candidates[0]) == raw then candidates[0]
    else ParseFrom(raw, candidates[1..])
  }

  function ParseState(raw: string): WorkflowState
  {
    ParseFrom(raw, KNOWN_STATES)
  }

  predicate IsKnown(raw: string)
  {
    !ParseState(raw).Unknown?
  }

  lemma {:induction false} ParseFromFinds(raw: string, candidates: seq<WorkflowState>)
    ensures StateName(ParseFrom(raw, candidates)) == raw
    ensures ParseFrom(raw, candidates) in candidates || ParseFrom(raw, candidates) == Unknown(raw)
  {
    if candidates != [] { ParseFromFinds(raw, candidates[1..]); }
  }

  predicate Blocked(s: WorkflowState) { s == Failed || s == RecoveryRequired }

  predicate Resumable(s: WorkflowState) { s == Init || s.Running? || s.Review? || s == Iterating }

  // ----- the persisted state ------------------------------------------------

  /** The two fields of a stored context the sanitizer reads; `body` stands for all the others. */
  datatype StoredContext = StoredContext(currentState: Option<string>, lastError: string, body: int)

  function Sanitize(raw: StoredContext): StoredContext
  {
    match raw.currentState
    case None => raw
    case Some(value) =>
      if IsKnown(value) then raw
      else raw.(currentState := Some(StateName(RecoveryRequired)),
                lastError := "invalid persisted workflow state: " + value)
  }

  /** Sanitizing repairs exactly the unknown states, into a blocked one, and repairing twice is repairing once. */
  lemma SanitizeIsIdempotentAndMinimal(raw: StoredContext)
    ensures Sanitize(Sanitize(raw)) == Sanitize(raw)
    ensures Sanitize(raw) == raw <==> raw.currentState.None? || IsKnown(raw.currentState.value)
    ensures Sanitize(raw).currentState.Some? ==> IsKnown(Sanitize(raw).currentState.value)
    ensures Sanitize(raw) != raw ==> Blocked(ParseState(Sanitize(raw).currentState.value))
    ensures Sanitize(raw).body == raw.body
  {
    assert ParseState(StateName(RecoveryRequired)) == RecoveryRequired by {
      KnownNamesParse(12);
    }
  }

  lemma KnownNamesParse(i: nat)
    requires i < |KNOWN_STATES|
    ensures ParseState(StateName(KNOWN_STATES[i])) == KNOWN_STATES[i]
  {
    var name := StateName(KNOWN_STATES[i]);
    ParseFromFinds(name, KNOWN_STATES);
    forall j: nat | j < |KNOWN_STATES| && j != i ensures StateName(KNOWN_STATES[j]) != name {
      NamesDiffer(i, j);
    }
    ParseFromHits(name, KNOWN_STATES, i);
  }

  lemma {:induction false} ParseFromHits(raw: string, candidates: seq<WorkflowState>, i: nat)
    requires i < |candidates| && StateName(candidates[i]) == raw
    requires forall j: nat :: j < |candidates| && j != i ==> StateName(candidates[j]) != raw
    ensures ParseFrom(raw, candidates) == candidates[i]
  {
    if i > 0 { ParseFromHits(raw, candidates[1..], i - 1); }
  }

  lemma NamesDiffer(i: nat, j: nat)
    requires i < |KNOWN_STATES| && j < |KNOWN_STATES| && i != j
    ensures StateName(KNOWN_STATES[i]) != StateName(KNOWN_STATES[j])
  {
    var a, b := StateName(KNOWN_STATES[i]), StateName(KNOWN_STATES[j]);
    if |a| == |b| && |a| >= 4 {
      assert a[0] == b[0] ==> a[1] != b[1] || a[3] != b[3] || a[2] != b[2];
    }
  }

  /** The names a state may be stored under, the resumable ones first. */
  const STATE_NAMES: seq<string> :=
    ["init", "s1_running", "s1_review", "s2_running", "s2_review", "s3_running", "s3_review", "s4_running", "s4_review",
     "iterating", "complete", "error", "recovery_required"]

  lemma StageNamesAre(k: Stage)
    ensures StateName(Running(k)) == ["s1_running", "s2_running", "s3_running", "s4_running"][k - 1]
    ensures StateName(Review(k)) == ["s1_review", "s2_review", "s3_review", "s4_review"][k - 1]
  {
    match k
    case 1 => assert "s" + "1" + "_running" == "s1_running" && "s" + "1" + "_review" == "s1_review";
    case 2 => assert "s" + "2" + "_running" == "s2_running" && "s" + "2" + "_review" == "s2_review";
    case 3 => assert "s" + "3" + "_running" == "s3_running" && "s" + "3" + "_review" == "s3_review";
    case 4 => assert "s" + "4" + "_running" == "s4_running" && "s" + "4" + "_review" == "s4_review";
  }

  lemma StateNamesAre(i: nat)
    requires i < |KNOWN_STATES|
    ensures |KNOWN_STATES| == |STATE_NAMES| && StateName(KNOWN_STATES[i]) == STATE_NAMES[i]
  {
    if 1 <= i <= 8 {
      StageNamesAre((i + 1) / 2);
      assert KNOWN_STATES[i] == if i % 2 == 1 then Running((i + 1) / 2) else Review((i + 1) / 2);
    }
  }

  /** A name is read as the state it names, and is unknown exactly if it names none. */
  lemma ParsesIff(raw: string, i: nat)
    requires i < |KNOWN_STATES|
    ensures ParseState(raw) == KNOWN_STATES[i] <==> raw == STATE_NAMES[i]
    ensures ParseState(raw).Unknown? <==> raw !in STATE_NAMES
  {
    ParseFromFinds(raw, KNOWN_STATES);
    forall j: nat | j < |KNOWN_STATES|
      ensures StateName(KNOWN_STATES[j]) == STATE_NAMES[j] && ParseState(STATE_NAMES[j]) == KNOWN_STATES[j]
    {
      StateNamesAre(j);
      KnownNamesParse(j);
    }
    if !ParseState(raw).Unknown? {
      var j :| 0 <= j < |KNOWN_STATES| && KNOWN_STATES[j] == ParseState(raw);
      assert raw == STATE_NAMES[j];
    }
    if raw in STATE_NAMES { var j :| 0 <= j < |STATE_NAMES| && STATE_NAMES[j] == raw; }
  }

  /** A stored state is replaced exactly if its name is unknown, by the recovery state, with the name kept in the error. */
  lemma SanitizeLeadsTo(raw: StoredContext)
    ensures Sanitize(raw) ==
      if raw.currentState.None? || raw.currentState.value in STATE_NAMES then raw
      else StoredContext(Some("recovery_required"), "invalid persisted workflow state: " + raw.currentState.value, raw.body)
  {
    if raw.currentState.Some? { ParsesIff(raw.currentState.value, 0); }
  }

  // ----- refusing and recovering ----------------------------------------------

  datatype RecoveryError = UnknownTarget | TargetNotResumable | NotBlocked

  function MarkInvalid(p: Project): Project
  {
    p.(state := RecoveryRequired, lastError := "invalid workflow state: " + StateName(p.state))
  }

  function MarkError(p: Project, reason: string): Project
  {
    p.(state := Failed, lastError := reason)
  }

  function ResolveTarget(target: string): Result<WorkflowState, RecoveryError>
  {
    var candidate := ParseState(target);
    if candidate.Unknown? then Err(UnknownTarget)
    else if !Resumable(candidate) then Err(TargetNotResumable)
    else Ok(candidate)
  }

  function Recover(p: Project, target: string): Result<Project, RecoveryError>
  {
    match ResolveTarget(target)
    case Err(e) => Err(e)
    case Ok(state) =>
      if !Blocked(p.state) && !p.state.Unknown? then Err(NotBlocked)
      else Ok(p.(state := state, lastError := ""))
  }

  /** The guard in front of every turn. */
  predicate Advanceable(p: Project) { !Blocked(p.state) && !p.state.Unknown? }

  /** Recovery succeeds exactly from a state that cannot advance into one that can, and clears the error. */
  lemma RecoveryIsExact(p: Project, target: string)
    ensures Recover(p, target).Ok? <==> !Advanceable(p) && Resumable(ParseState(target))
    ensures Recover(p, target).Ok? ==>
      var q := Recover(p, target).value;
      StateName(q.state) == target && Advanceable(q) && q.state != Complete
      && q == p.(state := q.state, lastError := "")
  {
    ParseFromFinds(target, KNOWN_STATES);
  }

  lemma ResumableAre(i: nat)
    requires i < |KNOWN_STATES|
    ensures Resumable(KNOWN_STATES[i]) <==> i < 10
  {
  }

  lemma PlaceOf(target: string) returns (i: nat)
    requires !ParseState(target).Unknown?
    ensures i < |KNOWN_STATES| && |KNOWN_STATES| == |STATE_NAMES| && STATE_NAMES[i] == target && ParseState(target) == KNOWN_STATES[i]
  {
    ParseFromFinds(target, KNOWN_STATES);
    i :| i < |KNOWN_STATES| && KNOWN_STATES[i] == ParseState(target);
    ParsesIff(target, i);
  }

  lemma ResumableIff(target: string)
    ensures Resumable(ParseState(target)) <==> target in STATE_NAMES[..10]
  {
    var ten := STATE_NAMES[..10];
    if target in ten {
      var i :| 0 <= i < 10 && ten[i] == target;
      ParsesIff(target, i);
      ResumableAre(i);
    }
    if Resumable(ParseState(target)) {
      var i := PlaceOf(target);
      ResumableAre(i);
      assert ten[i] == target;
    }
  }

  /** Recovery is allowed exactly from an error, the recovery state or an unknown one, to one of the ten named working states. */
  lemma RecoversIff(p: Project, target: string)
    ensures Recover(p, target).Ok? <==>
      (p.state in {Failed, RecoveryRequired} || p.state.Unknown?) && target in STATE_NAMES[..10]
    ensures Recover(p, target).Ok? ==> Recover(p, target).value == p.(state := ParseState(target), lastError := "")
  {
    ResumableIff(target);
    ParseFromFinds(target, KNOWN_STATES);
  }

  // ----- the stage gate ---------------------------------------------------------

  /** What the gate rules outside the model found, and whether a strict gate record could not be stored. */
  datatype GateView = GateView(otherBlockers: nat, persistenceFails: bool)

  datatype ActionBlocker = PendingAction(id: string) | RejectedAction(id: string) | UnresolvedEscalation(id: string)

  function ActionBlockerFor(a: HumanAction, stage: Stage, version: int): Option<ActionBlocker>
  {
    if a.stageId != stage || a.version != version then None
    else if a.status == Pending && a.blocking then Some(PendingAction(a.id))
    else if a.status == Resolved && a.decision == "reject" &&
            (a.actionType == ApproveType || a.actionType == EditType || a.actionType == EscalateType)
      then Some(RejectedAction(a.id))
    else if a.actionType == EscalateType && !(a.status == Resolved && a.decision == "approve") &&
            a.status != Cancelled && a.status != Superseded
      then Some(UnresolvedEscalation(a.id))
    else None
  }

  function ActionBlockers(actions: seq<HumanAction>, stage: Stage, version: int): seq<ActionBlocker>
  {
    if actions == [] then []
    else
      (match ActionBlockerFor(actions[0], stage, version) case None => [] case Some(b) => [b]) +
      ActionBlockers(actions[1..], stage, version)
  }

  lemma {:induction false} NoActionBlockers(actions: seq<HumanAction>, stage: Stage, version: int)
    ensures ActionBlockers(actions, stage, version) == []
            <==> forall a :: a in actions ==> ActionBlockerFor(a, stage, version) == None
  {
    if actions != [] { NoActionBlockers(actions[1..], stage, version); }
  }

  predicate HasParserError(p: Project, stage: Stage)
  {
    stage in p.parserErrors && p.parserErrors[stage] != ""
  }

  /** Nothing stale, open, rejected or unparsed about this stage: what no approval can override. */
  predicate RulesClear(p: Project, stage: Stage)
  {
    && StaleBlockers(p, stage) == []
    && ActionBlockers(p.actions, stage, CurrentVersion(p.versions, stage)) == []
    && !HasParserError(p, stage)
  }

  function CurrentStage(s: WorkflowState): nat
  {
    match s
    case Init => 1
    case Running(k) => k
    case Review(k) => k
    case Iterating => 4
    case Complete => 4
    case _ => 0
  }

  /** A stage is reached by the state, or by an output of its own or of a later stage. */
  predicate Actionable(p: Project, stage: Stage)
  {
    stage <= CurrentStage(p.state) || exists k: Stage :: k >= stage && k in p.outputs
  }

  /** The final rule: the earlier gates have nothing left that no approval can override, and everything was parsed. */
  predicate UpstreamClear(p: Project)
  {
    && (forall u: Stage :: u < 4 ==> (u in p.outputs || !Actionable(p, u)) && RulesClear(p, u))
    && (forall k: Stage :: !HasParserError(p, k))
  }

  predicate GateClear(p: Project, stage: Stage, g: GateView)
  {
    && stage in p.outputs
    && RulesClear(p, stage)
    && (stage == 4 ==> UpstreamClear(p))
    && g.otherBlockers == 0
  }

  datatype Advance = Advance(project: Project, advanced: bool, raised: bool)

  function NextState(stage: Stage): WorkflowState
  {
    if stage == 4 then Complete else Running(stage + 1)
  }

  function AdvanceStage(p: Project, stage: Stage, g: GateView): Advance
  {
    if g.persistenceFails then Advance(p, false, true)
    else if Blocked(p.state) || !GateClear(p, stage, g) then Advance(p, false, false)
    else Advance(p.(state := NextState(stage), reviewNotes := p.reviewNotes[stage := "approved"]), true, false)
  }

  /** Which of the three kinds of blocker an action of the stage and version is. */
  lemma BlockerSaysWhy(a: HumanAction, stage: Stage, version: int)
    ensures var b := ActionBlockerFor(a, stage, version);
      var concerned := a.stageId == stage && a.version == version;
      var rejected := a.status == Resolved && a.decision == "reject" && a.actionType in {ApproveType, EditType, EscalateType};
      && (b == Some(PendingAction(a.id)) <==> concerned && a.status == Pending && a.blocking)
      && (b == Some(RejectedAction(a.id)) <==> concerned && rejected)
      && (b == Some(UnresolvedEscalation(a.id)) <==>
            && concerned && !(a.status == Pending && a.blocking) && !rejected && a.actionType == EscalateType
            && a.status !in {Cancelled, Superseded} && !(a.status == Resolved && a.decision == "approve"))
      && b in {None, Some(PendingAction(a.id)), Some(RejectedAction(a.id)), Some(UnresolvedEscalation(a.id))}
  {
  }

  /** Nothing is held against a stage: it is not outdated, every answer of it was parsed, and no action of its version is open. */
  ghost predicate NothingHeldAgainst(p: Project, s: Stage)
  {
    && (s in p.outputs ==> !Flagged(p, s))
    && (s in p.outputs && s in p.dependencies ==>
          forall u :: u in p.dependencies[s] ==> CurrentVersion(p.versions, u) <= p.dependencies[s][u])
    && (s in p.parserErrors ==> p.parserErrors[s] == "")
    && (forall a :: a in p.actions && a.stageId == s && a.version == CurrentVersion(p.versions, s) ==> !HoldsUp(a))
  }

  /** A pending blocking action, a rejection, or an escalation that was neither approved nor given up. */
  ghost predicate HoldsUp(a: HumanAction)
  {
    || (a.status == Pending && a.blocking)
    || (a.status == Resolved && a.decision == "reject" && a.actionType in {ApproveType, EditType, EscalateType})
    || (a.actionType == EscalateType && a.status !in {Cancelled, Superseded} && !(a.status == Resolved && a.decision == "approve"))
  }

  ghost predicate IsReached(p: Project, u: Stage)
  {
    || p.state in {Iterating, Complete} || (p.state == Init && u == 1)
    || (exists k: Stage :: k >= u && (p.state in {Running(k), Review(k)} || k in p.outputs))
  }

  lemma RulesClearIff(p: Project, s: Stage)
    ensures RulesClear(p, s) <==> NothingHeldAgainst(p, s)
  {
    NoActionBlockers(p.actions, s, CurrentVersion(p.versions, s));
    NotStaleIff(p, s);
    forall a: HumanAction
      ensures ActionBlockerFor(a, s, CurrentVersion(p.versions, s)) == None <==>
        !(a.stageId == s && a.version == CurrentVersion(p.versions, s) && HoldsUp(a))
    {
    }
  }

  lemma NotStaleIff(p: Project, s: Stage)
    ensures StaleBlockers(p, s) == [] <==>
      && (s in p.outputs ==> !Flagged(p, s))
      && (s in p.outputs && s in p.dependencies ==>
            forall u :: u in p.dependencies[s] ==> CurrentVersion(p.versions, u) <= p.dependencies[s][u])
  {
    if s in p.dependencies {
      forall u | u in p.dependencies[s]
        ensures u in NewerDependencies(p, s) <==> p.dependencies[s][u] < CurrentVersion(p.versions, u)
      {
      }
      if NewerDependencies(p, s) != {} { var u :| u in NewerDependencies(p, s); }
    }
  }

  /**
    A gate is clear exactly if the stage has an output against which nothing is held, here or by the other rules; the last
    gate also wants nothing held against any earlier stage, an output of each that was reached, and everything parsed.
   */
  lemma GateIsClearIff(p: Project, stage: Stage, g: GateView)
    ensures GateClear(p, stage, g) <==>
      && stage in p.outputs && NothingHeldAgainst(p, stage) && g.otherBlockers == 0
      && (stage == 4 ==>
            && (forall u: Stage :: u < 4 ==> NothingHeldAgainst(p, u) && (IsReached(p, u) ==> u in p.outputs))
            && (forall k: Stage :: k in p.parserErrors ==> p.parserErrors[k] == ""))
  {
    RulesClearIff(p, stage);
    UpstreamIsClearIff(p);
  }

  lemma UpstreamIsClearIff(p: Project)
    ensures UpstreamClear(p) <==>
      && (forall u: Stage :: u < 4 ==> NothingHeldAgainst(p, u) && (IsReached(p, u) ==> u in p.outputs))
      && (forall k: Stage :: k in p.parserErrors ==> p.parserErrors[k] == "")
  {
    forall u: Stage
      ensures (u in p.outputs || !Actionable(p, u)) && RulesClear(p, u) <==>
        NothingHeldAgainst(p, u) && (IsReached(p, u) ==> u in p.outputs)
    {
      RulesClearIff(p, u);
      ReachedIff(p, u);
    }
    forall k: Stage ensures !HasParserError(p, k) <==> (k in p.parserErrors ==> p.parserErrors[k] == "") {}
  }

  lemma ReachedIff(p: Project, u: Stage)
    ensures Actionable(p, u) <==> IsReached(p, u)
  {
    match p.state
    case Running(k) => assert p.state in {Running(k), Review(k)};
    case Review(k) => assert p.state in {Running(k), Review(k)};
    case _ =>
  }

  /** Approving a stage moves on exactly from an unblocked state through a clear gate, and else changes nothing. */
  lemma AdvanceLeadsTo(p: Project, stage: Stage, g: GateView)
    ensures var a := AdvanceStage(p, stage, g);
      && (a.raised <==> g.persistenceFails)
      && (a.advanced <==> !g.persistenceFails && p.state !in {Failed, RecoveryRequired} && GateClear(p, stage, g))
      && a.project == if !a.advanced then p
                      else p.(state := if stage == 4 then Complete else Running(stage + 1),
                              reviewNotes := p.reviewNotes[stage := "approved"])
  {
  }

  /**
    A revision takes every pending or rejected action of the revised stage and of all later stages out
    of the gate's way, and touches no action of an earlier stage.
   */
  lemma RevisionSettlesActions(p: Project, stage: Stage, reason: string, note: string, author: string, i: nat)
    requires i < |p.actions|
    ensures var q := Revise(p, stage, reason, note, author).project;
      && |q.actions| == |p.actions|
      && (p.actions[i].stageId < stage ==> q.actions[i] == p.actions[i])
      && (stage <= p.actions[i].stageId <= 4 ==>
            match ActionBlockerFor(q.actions[i], p.actions[i].stageId, q.actions[i].version)
            case None => true
            case Some(UnresolvedEscalation(id)) => q.actions[i] == p.actions[i]
            case _ => false)
  {
    var superseded := p.(actions := SupersedeActions(p.actions, stage, reason, author));
    InvalidateSettlesAction(superseded, stage, stage + 1, reason, author, i);
  }

  // ----- one turn -----------------------------------------------------------------

  datatype Intake = IntakeFailed(error: string) | Collected | Incomplete

  datatype Reply = Approve | ReviseWith(note: string) | Back | BackToDesign | NotUnderstood

  /** Everything outside the model that one turn may meet: model calls, the reviewer's reply, other gate rules. */
  datatype Turn = Turn(intake: Intake, run: Execution, reply: Reply, gate: GateView)

  datatype StepResult = StepResult(project: Project, raised: bool)

  function NodeInit(p: Project, intake: Intake): Project
  {
    match intake
    case IntakeFailed(error) => p.(lastError := error, state := Init)
    case Collected => p.(state := Running(1))
    case Incomplete => p.(state := Init)
  }

  function NodeStageReview(p: Project, stage: Stage, t: Turn): StepResult
  {
    match t.reply
    case Approve =>
      var a := AdvanceStage(p, stage, t.gate);
      StepResult(a.project, a.raised)
    case ReviseWith(note) => StepResult(Revise(p, stage, "review", note, "").project, false)
    case Back => StepResult(Rollback(p, stage, stage - 1, "review", false, "").project, false)
    case BackToDesign =>
      if stage == 3 then StepResult(Rollback(p, 3, 2, "review", true, "").project, false) else StepResult(p, false)
    case NotUnderstood => StepResult(p, false)
  }

  function RunOneStep(before: Project, t: Turn): StepResult
  {
    var p := before.(pendingInput := "");
    match p.state
    case Complete => StepResult(p, false)
    case Failed => StepResult(p, false)
    case RecoveryRequired => StepResult(p, false)
    case Unknown(_) => StepResult(MarkInvalid(p), false)
    case Iterating => StepResult(MarkInvalid(p), false)
    case Init => StepResult(NodeInit(p, t.intake), false)
    case Running(stage) => var o := RunStage(p, stage, t.run); StepResult(o.project, o.raised)
    case Review(stage) => NodeStageReview(p, stage, t)
  }

  /**
    A turn of a running stage ends under review exactly if the model call produced an output and the gate could be
    evaluated; else the stage keeps running, with what went wrong. The output is there unless the call failed.
   */
  lemma RunningTurnReachesReviewIff(p: Project, t: Turn, stage: Stage)
    requires p.state == Running(stage)
    ensures var r := RunOneStep(p, t);
      && (r.project.state == Review(stage) <==> t.run.Produced? && t.run.gateError.None?)
      && (r.project.state == Review(stage) || r.project.state == Running(stage))
      && (t.run.Produced? ==> stage in r.project.outputs && !r.raised)
      && (t.run.ModelFailed? ==> r.project.lastError == t.run.error && (r.raised <==> t.run.reRaised))
      && (t.run.Produced? && t.run.gateError.Some? ==> r.project.lastError == t.run.gateError.value)
      && (t.run.Produced? && t.run.gateError.None? ==> r.project.lastError == p.lastError)
  {
    if t.run.Produced? {
      var executed := p.(pendingInput := "", outputs := p.outputs + {stage},
                         parserErrors := PutParserError(p.parserErrors, stage, t.run.parserError));
      InvalidateFrame(RecordDependencies(executed.(versions := BumpVersion(executed.versions, stage)), stage),
                      stage, stage + 1, "regenerated", "");
    }
  }

  /**
    What a turn of any other state leads to: collecting ends in the first stage or starts over, a blocked or complete session
    stays as it is, and a state the runner does not know is parked, with its name.
   */
  lemma OtherTurnsLeadTo(p: Project, t: Turn)
    requires !p.state.Running? && !p.state.Review?
    ensures var r, q := RunOneStep(p, t), p.(pendingInput := "");
      !r.raised && r.project ==
        match p.state
        case Init =>
          (match t.intake
           case Collected => q.(state := Running(1))
           case Incomplete => q
           case IntakeFailed(error) => q.(lastError := error))
        case Complete => q
        case Failed => q
        case RecoveryRequired => q
        case _ => q.(state := RecoveryRequired, lastError := "invalid workflow state: " + StateName(p.state))
  {
  }

  /** What a turn of a stage under review leads to, reply by reply. */
  lemma ReviewTurnLeadsTo(p: Project, t: Turn, stage: Stage)
    requires p.state == Review(stage)
    ensures var q, after := p.(pendingInput := ""), RunOneStep(p, t).project;
      && (RunOneStep(p, t).raised <==> t.reply.Approve? && t.gate.persistenceFails)
      && match t.reply
         case Approve =>
           after == if Advances(q, stage, t.gate) then q.(state := NextState(stage), reviewNotes := q.reviewNotes[stage := "approved"]) else q
         case ReviseWith(note) =>
           after.state == Running(stage) && after.reviewNotes == q.reviewNotes[stage := "revise: " + note] &&
           after.iterationCount == q.iterationCount + 1
         case Back => after.state == (if stage == 1 then Init else Review(stage - 1)) && after.iterationCount == 0
         case BackToDesign => if stage == 3 then after.state == Running(2) && after.iterationCount == 0 else after == q
         case NotUnderstood => after == q
  {
    var q := p.(pendingInput := "");
    match t.reply
    case ReviseWith(note) => RevisionLeadsTo(q, stage, "review", note, "");
    case Back => RollbackLeadsTo(q, stage, stage - 1, "review", false, "");
    case BackToDesign => RollbackLeadsTo(q, 3, 2, "review", true, "");
    case _ =>
  }

  // ----- whole histories of a session -----------------------------------------------

  /** Everything that happens to a session; the requests come from the stage operations, which ask for no state. */
  datatype Event =
    | Chat(turn: Turn)
    | DirectAdvance(stage: Stage, gate: GateView)
    | Recovery(target: string)
    | Edit(stage: Stage, parserError: Option<string>, actionId: string, created: seq<HumanAction>)
    | Revision(stage: Stage, reason: string, note: string, author: string)
    | RollbackRequest(from: Stage, to: int, reason: string, running: bool, author: string)
    | Failure(reason: string)
    // every other service: any change of errors, input, actions, parser errors and notes
    | Work(error: string, input: string, actions: seq<HumanAction>, parserErrors: map<Stage, string>,
           notes: map<Stage, string>)

  function Do(p: Project, e: Event): Project
  {
    match e
    case Chat(turn) => if Advanceable(p) then RunOneStep(p, turn).project else p
    case DirectAdvance(stage, gate) => AdvanceStage(p, stage, gate).project
    case Recovery(target) => (match Recover(p, target) case Ok(q) => q case Err(_) => p)
    case Edit(stage, parserError, actionId, created) => EditOutput(p, stage, parserError, actionId, created)
    case Revision(stage, reason, note, author) => Revise(p, stage, reason, note, author).project
    case RollbackRequest(from, to, reason, running, author) => Rollback(p, from, to, reason, running, author).project
    case Failure(reason) => MarkError(p, reason)
    case Work(error, input, actions, parserErrors, notes) =>
      p.(lastError := error, pendingInput := input, actions := actions, parserErrors := parserErrors, reviewNotes := notes)
  }

  function Run(p: Project, events: seq<Event>): Project
  {
    if events == [] then p else Do(Run(p, events[..|events| - 1]), events[|events| - 1])
  }

  function After(events: seq<Event>): Project { Run(FRESH, events) }

  /** A failure parks the session with its reason, and no turn leaves that. */
  lemma FailureLeadsTo(p: Project, reason: string, t: Turn)
    ensures var q := Do(p, Failure(reason));
      q == p.(state := Failed, lastError := reason) && RunOneStep(q, t) == StepResult(q.(pendingInput := ""), false)
  {
  }

  lemma EditKeepsState(p: Project, stage: Stage, parserError: Option<string>, actionId: string, created: seq<HumanAction>)
    ensures EditOutput(p, stage, parserError, actionId, created).state == p.state
  {
    CommitEffect(p.(outputs := p.outputs + {stage}, parserErrors := PutParserError(p.parserErrors, stage, parserError)),
                 stage, "edited", actionId);
  }

  // ----- the order of the stages ------------------------------------------------------

  /** How many stages the current state claims to have left upward. */
  function Level(s: WorkflowState): nat
  {
    match s case Running(k) => k - 1 case Review(k) => k - 1 case Complete => 4 case _ => 0
  }

  predicate Advances(p: Project, stage: Stage, g: GateView)
  {
    !g.persistenceFails && !Blocked(p.state) && GateClear(p, stage, g)
  }

  /** The event leaves stage `s`, the next one, upward: by approval under review or directly, with its gate clear. */
  predicate LeavesUpward(p: Project, e: Event, s: int)
  {
    && 1 <= s <= 4 && Level(p.state) == s - 1
    && match e
       case Chat(turn) =>
         p.state == Review(s) && turn.reply == Approve && Advances(p.(pendingInput := ""), s, turn.gate)
       case DirectAdvance(stage, gate) => stage == s && Advances(p, s, gate)
       case _ => false
  }

  /** The event skips a stage: nothing in the code asks these requests for the stages in between. */
  predicate Leaps(p: Project, e: Event)
  {
    match e
    case DirectAdvance(stage, gate) => stage > Level(p.state) + 1 && Advances(p, stage, gate)
    case Recovery(target) => Level(ParseState(target)) > Level(p.state) && Recover(p, target).Ok?
    case Revision(stage, _, _, _) => stage > Level(p.state) + 1
    case RollbackRequest(from, to, _, _, _) => to > Level(p.state) + 1 && to < from
    case _ => false
  }

  /** One turn raises the level by at most one stage, and only by leaving that stage upward. */
  lemma LevelRisesOnlyThroughTheGate(p: Project, t: Turn)
    ensures var q := RunOneStep(p, t).project;
      Level(q.state) > Level(p.state) ==>
        var s := Level(p.state) + 1;
        && s <= 4 && Level(q.state) == s && p.state == Review(s) && t.reply == Approve
        && GateClear(p.(pendingInput := ""), s, t.gate) && q.state == NextState(s)
  {
    match p.state
    case Running(stage) => StageRunKeepsLevel(p.(pendingInput := ""), stage, t.run);
    case Review(stage) => ReviewRaisesOnlyByApproval(p.(pendingInput := ""), stage, t);
    case _ =>
  }

  lemma StageRunKeepsLevel(p: Project, stage: Stage, run: Execution)
    ensures Level(RunStage(p, stage, run).project.state) == stage - 1
  {
  }

  lemma ReviewRaisesOnlyByApproval(p: Project, stage: Stage, t: Turn)
    requires p.state == Review(stage)
    ensures var q := NodeStageReview(p, stage, t).project;
      Level(q.state) > Level(p.state) ==>
        t.reply == Approve && !t.gate.persistenceFails && GateClear(p, stage, t.gate) && q.state == NextState(stage)
  {
  }

  lemma TurnRaisesIff(p: Project, t: Turn)
    ensures Level(Do(p, Chat(t)).state) > Level(p.state) <==> LeavesUpward(p, Chat(t), Level(p.state) + 1)
    ensures LeavesUpward(p, Chat(t), Level(p.state) + 1) ==> Do(p, Chat(t)).state == NextState(Level(p.state) + 1)
  {
    LevelRisesOnlyThroughTheGate(p, t);
    if p.state.Review? { ReviewRaisesOnlyByApproval(p.(pendingInput := ""), p.state.stage, t); }
  }

  lemma DirectAdvanceRaisesIff(p: Project, stage: Stage, g: GateView)
    ensures var e, s := DirectAdvance(stage, g), Level(p.state) + 1;
      && (Level(Do(p, e).state) > Level(p.state) <==> LeavesUpward(p, e, s) || Leaps(p, e))
      && (LeavesUpward(p, e, s) ==> Do(p, e).state == NextState(s))
  {
    AdvanceLeadsTo(p, stage, g);
  }

  /** Whatever the event, the level rises exactly if the next stage is left upward, by one, or stages are leapt over. */
  lemma LevelRisesIff(p: Project, e: Event)
    ensures Level(Do(p, e).state) > Level(p.state) <==> LeavesUpward(p, e, Level(p.state) + 1) || Leaps(p, e)
    ensures LeavesUpward(p, e, Level(p.state) + 1) ==> Do(p, e).state == NextState(Level(p.state) + 1)
  {
    match e
    case Chat(turn) => TurnRaisesIff(p, turn);
    case DirectAdvance(stage, gate) => DirectAdvanceRaisesIff(p, stage, gate);
    case Edit(stage, parserError, actionId, created) => EditKeepsState(p, stage, parserError, actionId, created);
    case Work(_, _, _, _, _) =>
    case Failure(_) =>
    case _ => LeapsIff(p, e);
  }

  lemma LeapsIff(p: Project, e: Event)
    requires e.Recovery? || e.Revision? || e.RollbackRequest?
    ensures Level(Do(p, e).state) > Level(p.state) <==> Leaps(p, e)
  {
    match e
    case Recovery(target) => RecoveryIsExact(p, target);
    case Revision(stage, reason, note, author) =>
      assert Revise(p, stage, reason, note, author).project.state == Running(stage);
    case RollbackRequest(from, to, reason, running, author) =>
      assert 1 <= to < from ==>
        Rollback(p, from, to, reason, running, author).project.state == if running then Running(to) else Review(to);
  }

  /** Event number `t` left stage `s` upward. */
  ghost predicate LeftAt(events: seq<Event>, t: nat, s: int)
  {
    t < |events| && LeavesUpward(After(events[..t]), events[t], s)
  }

  ghost function LeftIn(events: seq<Event>): (nat, int) -> bool
  {
    (t: nat, s: int) => LeftAt(events, t, s)
  }

  /** Increasing times before `n`, the i-th of them a time at which stage i was left. */
  ghost predicate InOrder(left: (nat, int) -> bool, n: nat, times: seq<nat>)
  {
    && (forall i :: 0 <= i < |times| ==> left(times[i], i + 1) && times[i] < n)
    && (forall i, j :: 0 <= i < j < |times| ==> times[i] < times[j])
  }

  ghost predicate NothingLeapt(events: seq<Event>)
  {
    forall n :: 0 <= n < |events| ==> !Leaps(After(events[..n]), events[n])
  }

  lemma EarlierTimesStay(events: seq<Event>, n: nat, times: seq<nat>)
    requires n <= |events| && InOrder(LeftIn(events[..n]), n, times)
    ensures InOrder(LeftIn(events), n, times)
  {
    forall i | 0 <= i < |times| ensures LeftAt(events, times[i], i + 1) {
      assert LeftIn(events[..n])(times[i], i + 1);
      assert events[..n][..times[i]] == events[..times[i]];
    }
  }

  lemma ExtendTimes(left: (nat, int) -> bool, n: nat, before: seq<nat>, level: nat) returns (times: seq<nat>)
    requires InOrder(left, n, before)
    requires level > |before| ==> level == |before| + 1 && left(n, level)
    ensures |times| == level && InOrder(left, n + 1, times)
  {
    times := if level <= |before| then before[..level] else before + [n];
  }

  /**
    In every history from a fresh session without a leap, whatever else is edited, revised, rolled back or resolved
    in between, each stage below the current level was left upward through a clear gate, in stage order.
   */
  lemma {:induction false} StagesAreClearedInOrder(events: seq<Event>) returns (times: seq<nat>)
    requires NothingLeapt(events)
    ensures |times| == Level(After(events).state)
    ensures InOrder(LeftIn(events), |events|, times)
  {
    if events == [] { return []; }
    var n := |events| - 1;
    forall m | 0 <= m < n ensures !Leaps(After(events[..n][..m]), events[..n][m]) {
      assert events[..n][..m] == events[..m];
    }
    var before := StagesAreClearedInOrder(events[..n]);
    EarlierTimesStay(events, n, before);
    LevelRisesIff(After(events[..n]), events[n]);
    times := ExtendTimes(LeftIn(events), n, before, Level(After(events).state));
  }

  /** So COMPLETE is reached only after all four stages were left upward, each with its gate clear, in order. */
  lemma CompleteOnlyThroughGates(events: seq<Event>) returns (t1: nat, t2: nat, t3: nat, t4: nat)
    requires NothingLeapt(events) && After(events).state == Complete
    ensures t1 < t2 < t3 < t4
    ensures LeftAt(events, t1, 1) && LeftAt(events, t2, 2) && LeftAt(events, t3, 3) && LeftAt(events, t4, 4)
  {
    var times := StagesAreClearedInOrder(events);
    t1, t2, t3, t4 := times[0], times[1], times[2], times[3];
    assert forall i :: 0 <= i < 4 ==> LeftIn(events)(times[i], i + 1);
  }

  /** A leap is no theory: revising stage 4 of a fresh session claims three stages of which none was ever left. */
  lemma RevisionLeaps(reason: string, note: string, author: string)
    ensures var events := [Revision(4, reason, note, author)];
      Level(After(events).state) == 3 && forall t: nat, s: int :: !LeftAt(events, t, s)
  {
    var events := [Revision(4, reason, note, author)];
    assert events[..|events| - 1] == [];
    assert After([]) == FRESH;
    assert Revise(FRESH, 4, reason, note, author).project.state == Running(4);
  }

  // ----- progress ---------------------------------------------------------------------

  /** The stages so far were run and approved, nothing is stale, open or unparsed, and no later stage has anything. */
  ghost predicate CleanUpTo(p: Project, n: nat)
  {
    && n <= 4 && p.state == (if n == 0 then Running(1) else NextState(n)) && IsClean(p)
    && (forall k: Stage :: if k <= n then k in p.outputs else k !in p.outputs + p.versions.Keys + p.dependencies.Keys)
  }

  /** The same with stage `n` run and under review. */
  ghost predicate ReviewedUpTo(p: Project, n: nat)
  {
    && 1 <= n <= 4 && p.state == Review(n) && IsClean(p)
    && (forall k: Stage :: if k <= n then k in p.outputs else k !in p.outputs + p.versions.Keys + p.dependencies.Keys)
  }

  ghost predicate IsClean(p: Project)
  {
    p.staleness == map[] && p.actions == [] && p.parserErrors == map[] && forall k: Stage :: NewerDependencies(p, k) == {}
  }

  /** A run that produces an output without a complaint, and an approval under which no other rule objects. */
  predicate IsSmooth(t: Turn)
  {
    t.run == Produced(None, [], None) && t.reply == Approve && t.gate == GateView(0, false)
  }

  lemma NothingToInvalidate(p: Project, changed: Stage, next: int)
    requires 1 <= next <= 5 && forall k: Stage :: k >= next ==> !HasState(p, k)
    ensures InvalidateFrom(p, changed, next, "regenerated", "") == p
    decreases 5 - next
  {
    if next < 5 { NothingToInvalidate(p, changed, next + 1); }
  }

  lemma FirstCommitOutdatesNothing(p: Project, q: Project, s: Stage)
    requires (forall k: Stage :: NewerDependencies(p, k) == {}) && s !in p.versions
    requires q.versions == BumpVersion(p.versions, s) && q.dependencies == p.dependencies[s := UpstreamVersions(p.versions, s)]
    ensures forall k: Stage :: NewerDependencies(q, k) == {}
  {
    forall u: Stage ensures CurrentVersion(q.versions, u) == CurrentVersion(p.versions, u) {}
    forall k: Stage ensures NewerDependencies(q, k) == {} {
      assert NewerDependencies(p, k) == {};
      if k in q.dependencies {
        forall u | u in q.dependencies[k] ensures q.dependencies[k][u] >= CurrentVersion(q.versions, u) {
          assert k != s ==> u in p.dependencies[k] && u !in NewerDependencies(p, k);
        }
      }
    }
  }

  lemma SmoothCommit(p: Project, stage: Stage)
    requires forall k: Stage :: k > stage ==> !HasState(p, k)
    ensures var q := CommitOutput(p, stage, "regenerated", "");
      q == p.(versions := BumpVersion(p.versions, stage), dependencies := p.dependencies[stage := UpstreamVersions(p.versions, stage)],
              staleness := p.staleness - {stage})
  {
    BumpLeavesUpstream(p.versions, stage, stage);
    var recorded := RecordDependencies(p.(versions := BumpVersion(p.versions, stage)), stage);
    forall k: Stage | k > stage ensures !HasState(recorded, k) { assert !HasState(p, k); }
    NothingToInvalidate(recorded, stage, stage + 1);
  }

  /** A smooth run of the next stage leaves it counted, recorded and under review. */
  lemma SmoothRun(p: Project, s: Stage, t: Turn)
    requires CleanUpTo(p, s - 1) && IsSmooth(t)
    ensures ReviewedUpTo(Do(p, Chat(t)), s)
  {
    var executed := p.(pendingInput := "", outputs := p.outputs + {s}, parserErrors := p.parserErrors - {s});
    SmoothCommit(executed, s);
    var committed := CommitOutput(executed, s, "regenerated", "");
    assert committed.staleness == map[] && executed.parserErrors == map[];
    FirstCommitOutdatesNothing(p, committed, s);
    assert RunOneStep(p, t).project == committed.(actions := committed.actions + [], state := Review(s));
    assert committed.actions + [] == [];
    SameRecords(committed, RunOneStep(p, t).project);
  }

  /** What is newer than a record depends on versions and records alone. */
  lemma SameRecords(p: Project, q: Project)
    requires q.versions == p.versions && q.dependencies == p.dependencies
    ensures forall k: Stage :: NewerDependencies(q, k) == NewerDependencies(p, k)
  {
  }

  lemma CleanStageIsClear(p: Project, stage: Stage, g: GateView)
    requires IsClean(p) && (forall k: Stage :: k <= stage ==> k in p.outputs) && g == GateView(0, false)
    ensures GateClear(p, stage, g)
  {
    forall k: Stage ensures RulesClear(p, k) { assert NewerDependencies(p, k) == {}; }
  }

  lemma SmoothApproval(p: Project, s: Stage, t: Turn)
    requires ReviewedUpTo(p, s) && IsSmooth(t)
    ensures CleanUpTo(Do(p, Chat(t)), s)
  {
    var q := p.(pendingInput := "");
    SameRecords(p, q);
    CleanStageIsClear(q, s, t.gate);
    SameRecords(p, Do(p, Chat(t)));
  }

  /** Where a session stands after collecting and `n` further smooth turns. */
  ghost predicate StandsAfter(p: Project, n: nat)
  {
    if n % 2 == 0 then CleanUpTo(p, n / 2) else ReviewedUpTo(p, n / 2 + 1)
  }

  lemma SmoothTurn(p: Project, n: nat, t: Turn)
    requires StandsAfter(p, n) && n < 8 && IsSmooth(t)
    ensures StandsAfter(Do(p, Chat(t)), n + 1)
  {
    if n % 2 == 0 { SmoothRun(p, n / 2 + 1, t); } else { SmoothApproval(p, n / 2 + 1, t); }
  }

  function Chats(turns: seq<Turn>): seq<Event>
  {
    seq(|turns|, i requires 0 <= i < |turns| => Chat(turns[i]))
  }

  lemma OneMoreChat(turns: seq<Turn>)
    requires turns != []
    ensures var m := |turns| - 1; After(Chats(turns)) == Do(After(Chats(turns[..m])), Chat(turns[m]))
  {
    var m := |turns| - 1;
    assert Chats(turns)[..m] == Chats(turns[..m]);
  }

  lemma LastSmoothTurn(turns: seq<Turn>)
    requires 1 < |turns| <= 9 && IsSmooth(turns[|turns| - 1])
    requires StandsAfter(After(Chats(turns[..|turns| - 1])), |turns| - 2)
    ensures StandsAfter(After(Chats(turns)), |turns| - 1)
  {
    OneMoreChat(turns);
    SmoothTurn(After(Chats(turns[..|turns| - 1])), |turns| - 2, turns[|turns| - 1]);
  }

  lemma {:induction false} SmoothTurns(turns: seq<Turn>)
    requires 1 <= |turns| <= 9 && turns[0].intake == Collected && forall t :: t in turns[1..] ==> IsSmooth(t)
    ensures StandsAfter(After(Chats(turns)), |turns| - 1)
  {
    var m := |turns| - 1;
    if m == 0 {
      OneMoreChat(turns);
      assert turns[..0] == [];
      CollectedIsClean(turns[0]);
    } else {
      assert turns[m] in turns[1..];
      forall t | t in turns[..m][1..] ensures IsSmooth(t) { assert t in turns[1..]; }
      SmoothTurns(turns[..m]);
      LastSmoothTurn(turns);
    }
  }

  lemma CollectedIsClean(t: Turn)
    requires t.intake == Collected
    ensures CleanUpTo(Do(After(Chats([])), Chat(t)), 0)
  {
    assert Chats([]) == [];
    var q := RunOneStep(FRESH, t).project;
    forall k: Stage ensures NewerDependencies(q, k) == {} {}
  }

  /** Progress: collecting, then running and approving each stage, nine turns to which no rule objects end in COMPLETE. */
  lemma NineSmoothTurnsComplete(turns: seq<Turn>)
    requires |turns| == 9 && turns[0].intake == Collected && forall t :: t in turns[1..] ==> IsSmooth(t)
    ensures After(Chats(turns)).state == Complete
  {
    SmoothTurns(turns);
  }

  // ----- events and the lineage -----------------------------------------------------------

  function WorkStep(q: Project): Step
  {
    OtherWork(q.state, q.lastError, q.pendingInput, q.actions, q.parserErrors, q.reviewNotes)
  }

  /** The lineage steps one turn amounts to. */
  function TurnSteps(before: Project, t: Turn): seq<Step>
  {
    var p := before.(pendingInput := "");
    var q := RunOneStep(before, t).project;
    match p.state
    case Running(stage) => [WorkStep(p), StageRun(stage, t.run)]
    case Review(stage) =>
      (match t.reply
       case ReviseWith(note) => [WorkStep(p), Revised(stage, "review", note, "")]
       case Back => [WorkStep(p), RolledBack(stage, stage - 1, "review", false, "")]
       case BackToDesign => if stage == 3 then [WorkStep(p), RolledBack(3, 2, "review", true, "")] else [WorkStep(p)]
       case _ => [WorkStep(q)])
    case _ => [WorkStep(q)]
  }

  function EventSteps(p: Project, e: Event): seq<Step>
  {
    match e
    case Chat(turn) => if Advanceable(p) then TurnSteps(p, turn) else [WorkStep(p)]
    case Edit(stage, parserError, actionId, created) => [OutputEdited(stage, parserError, actionId, created)]
    case Revision(stage, reason, note, author) => [Revised(stage, reason, note, author)]
    case RollbackRequest(from, to, reason, running, author) => [RolledBack(from, to, reason, running, author)]
    case _ => [WorkStep(Do(p, e))]
  }

  function AsLineage(events: seq<Event>): seq<Step>
  {
    if events == [] then []
    else
      var n := |events| - 1;
      AsLineage(events[..n]) + EventSteps(After(events[..n]), events[n])
  }

  lemma OnlyWorkChanged(p: Project, q: Project)
    requires q == p.(state := q.state, lastError := q.lastError, pendingInput := q.pendingInput, actions := q.actions,
                     parserErrors := q.parserErrors, reviewNotes := q.reviewNotes)
    ensures Apply(p, WorkStep(q)) == q
  {
  }

  predicate StepsAmountTo(p: Project, steps: seq<Step>, q: Project)
  {
    || (|steps| == 1 && Apply(p, steps[0]) == q)
    || (|steps| == 2 && Apply(Apply(p, steps[0]), steps[1]) == q)
  }

  lemma ReviewTurnIsLineageSteps(p: Project, stage: Stage, t: Turn)
    requires p.state == Review(stage)
    ensures StepsAmountTo(p, TurnSteps(p, t), RunOneStep(p, t).project)
  {
    OnlyWorkChanged(p, p.(pendingInput := ""));
    if t.reply == Approve || t.reply == NotUnderstood { OnlyWorkChanged(p, RunOneStep(p, t).project); }
  }

  lemma RunningTurnIsLineageSteps(p: Project, stage: Stage, t: Turn)
    requires p.state == Running(stage)
    ensures StepsAmountTo(p, TurnSteps(p, t), RunOneStep(p, t).project)
  {
    OnlyWorkChanged(p, p.(pendingInput := ""));
  }

  lemma IdleTurnIsLineageSteps(p: Project, t: Turn)
    requires !p.state.Running? && !p.state.Review?
    ensures StepsAmountTo(p, TurnSteps(p, t), RunOneStep(p, t).project)
  {
    var q := p.(pendingInput := "");
    match p.state
    case Init => OnlyWorkChanged(p, NodeInit(q, t.intake));
    case Iterating => OnlyWorkChanged(p, MarkInvalid(q));
    case Unknown(_) => OnlyWorkChanged(p, MarkInvalid(q));
    case _ => OnlyWorkChanged(p, q);
  }

  lemma TurnIsLineageSteps(p: Project, t: Turn)
    ensures StepsAmountTo(p, TurnSteps(p, t), RunOneStep(p, t).project)
  {
    match p.state
    case Running(stage) => RunningTurnIsLineageSteps(p, stage, t);
    case Review(stage) => ReviewTurnIsLineageSteps(p, stage, t);
    case _ => IdleTurnIsLineageSteps(p, t);
  }

  lemma EventIsLineageSteps(p: Project, e: Event)
    ensures StepsAmountTo(p, EventSteps(p, e), Do(p, e))
  {
    match e
    case Chat(turn) => if Advanceable(p) { TurnIsLineageSteps(p, turn); } else { OnlyWorkChanged(p, p); }
    case Edit(_, _, _, _) =>
    case Revision(_, _, _, _) =>
    case RollbackRequest(_, _, _, _, _) =>
    case _ => OnlyWorkChanged(p, Do(p, e));
  }

  lemma RunOneMore(steps: seq<Step>, s: Step)
    ensures RunSteps(steps + [s]).project == Apply(RunSteps(steps).project, s)
  {
    assert (steps + [s])[..|steps|] == steps;
  }

  lemma RunTwoMore(steps: seq<Step>, s: Step, next: Step)
    ensures RunSteps(steps + [s, next]).project == Apply(Apply(RunSteps(steps).project, s), next)
  {
    RunOneMore(steps, s);
    RunOneMore(steps + [s], next);
    assert steps + [s, next] == steps + [s] + [next];
  }

  lemma RunMore(steps: seq<Step>, p: Project, more: seq<Step>, q: Project)
    requires RunSteps(steps).project == p && StepsAmountTo(p, more, q)
    ensures RunSteps(steps + more).project == q
  {
    if |more| == 1 {
      assert more == [more[0]];
      RunOneMore(steps, more[0]);
    } else {
      assert more == [more[0], more[1]];
      RunTwoMore(steps, more[0], more[1]);
    }
  }

  /** Every history of a session is a run of lineage steps, so everything proved of those holds of it. */
  lemma {:induction false} HistoryRefinesLineage(events: seq<Event>)
    ensures RunSteps(AsLineage(events)).project == After(events)
  {
    if events != [] {
      var n := |events| - 1;
      HistoryRefinesLineage(events[..n]);
      var p := After(events[..n]);
      EventIsLineageSteps(p, events[n]);
      RunMore(AsLineage(events[..n]), p, EventSteps(p, events[n]), Do(p, events[n]));
    }
  }

  // ----- what entering COMPLETE means -------------------------------------------------------

  /** All four outputs stand, none is stale, and each was made from the outputs of all earlier stages that stand now. */
  ghost predicate IsOneLineage(c: Chronicle)
  {
    && StageOutputsPresent(c.project) && StaleKeys(c.project) == {}
    && (forall k: Stage :: k >= 2 ==> k in c.project.versions)
    && (forall u: Stage, k: Stage :: u < k ==> MadeFrom(c, u, k))
  }

  /** Stage `k` was made from the output of stage `u` that stands now, and its records say so. */
  ghost predicate MadeFrom(c: Chronicle, u: Stage, k: Stage)
  {
    && k in c.project.dependencies && u in c.project.dependencies[k]
    && c.project.dependencies[k][u] == CurrentVersion(c.project.versions, u)
    && k in c.history.builtFrom && u in c.history.builtFrom[k]
    && c.history.builtFrom[k][u] == Made(c.history, u)
  }

  lemma OutputsAreOneLineage(steps: seq<Step>)
    requires StageOutputsPresent(RunSteps(steps).project) && StaleKeys(RunSteps(steps).project) == {}
    ensures IsOneLineage(RunSteps(steps))
  {
    CountersCountMakes(steps);
    forall u: Stage, k: Stage | u < k ensures MadeFrom(RunSteps(steps), u, k) {
      FreshOutputsFormOneLineage(steps, u, k);
    }
  }

  /** After any regenerations, edits, revisions, rollbacks and other work: a clear stage 4 gate means one fresh lineage. */
  lemma ClearFinalGateMeansOneLineage(steps: seq<Step>, g: GateView)
    requires GateClear(RunSteps(steps).project, 4, g)
    ensures IsOneLineage(RunSteps(steps))
  {
    var p := RunSteps(steps).project;
    forall k: Stage ensures k in p.outputs && k !in StaleKeys(p) {
      assert k in p.outputs by { assert Actionable(p, k); }
      assert RulesClear(p, k);
      StaleCollectorIsExact(steps, k);
    }
    OutputsAreOneLineage(steps);
  }

  /** Editing a stage closes the final gate as long as a later output was not made again. */
  lemma EditClosesFinalGate(p: Project, stage: Stage, parserError: Option<string>, actionId: string,
                            created: seq<HumanAction>, later: Stage, g: GateView)
    requires stage < later && later in p.outputs
    ensures !GateClear(EditOutput(p, stage, parserError, actionId, created), 4, g)
  {
    var edited := p.(outputs := p.outputs + {stage}, parserErrors := PutParserError(p.parserErrors, stage, parserError));
    CommitEffect(edited, stage, "edited", actionId);
    var q := EditOutput(p, stage, parserError, actionId, created);
    assert Flagged(CommitOutput(edited, stage, "edited", actionId), later);
    assert StaleBlockers(q, later) != [];
    assert !RulesClear(q, later);
  }

  /** Whatever the event, the assessment becomes COMPLETE only through a clear stage 4 gate. */
  lemma CompleteOnlyThroughLastGate(p: Project, e: Event)
    requires p.state != Complete && Do(p, e).state == Complete
    ensures e.Chat? || e.DirectAdvance?
    ensures e.Chat? ==> p.state == Review(4) && e.turn.reply == Approve
    ensures e.Chat? ==> GateClear(p.(pendingInput := ""), 4, e.turn.gate)
    ensures e.DirectAdvance? ==> e.stage == 4 && !Blocked(p.state) && GateClear(p, 4, e.gate)
  {
    match e
    case Recovery(target) => RecoveryIsExact(p, target);
    case Edit(stage, parserError, actionId, created) => EditKeepsState(p, stage, parserError, actionId, created);
    case _ =>
  }

  lemma AdvancingKeepsLineage(c: Chronicle, q: Project, h: History)
    requires IsOneLineage(c)
    requires h == c.history && q == c.project.(state := q.state, pendingInput := q.pendingInput, reviewNotes := q.reviewNotes)
    ensures IsOneLineage(Chronicle(q, h))
  {
    assert StaleKeys(q) == StaleKeys(c.project);
    forall u: Stage, k: Stage | u < k ensures MadeFrom(Chronicle(q, h), u, k) { assert MadeFrom(c, u, k); }
  }

  /**
    In every history, with leaps, edits and whatever else: at the moment the assessment becomes COMPLETE it is
    complete. All four outputs stand, none is stale, and each was made from the earlier outputs that stand now.
   */
  lemma CompleteIsEnteredOnOneLineage(events: seq<Event>)
    requires events != [] && After(events).state == Complete && After(events[..|events| - 1]).state != Complete
    ensures RunSteps(AsLineage(events)).project == After(events) && IsOneLineage(RunSteps(AsLineage(events)))
  {
    var n := |events| - 1;
    var steps := AsLineage(events[..n]);
    HistoryRefinesLineage(events);
    HistoryRefinesLineage(events[..n]);
    EnteringMeansOneLineage(steps, After(events[..n]), events[n]);
    assert AsLineage(events) == steps + EventSteps(After(events[..n]), events[n]);
  }

  lemma EnteringMeansOneLineage(steps: seq<Step>, p: Project, e: Event)
    requires RunSteps(steps).project == p && p.state != Complete && Do(p, e).state == Complete
    ensures IsOneLineage(RunSteps(steps + EventSteps(p, e)))
  {
    CompleteOnlyThroughLastGate(p, e);
    if e.Chat? { InputIsNoMatter(steps, e.turn.gate); } else { ClearFinalGateMeansOneLineage(steps, e.gate); }
    EnteringOnlyMoves(p, e);
    var last := WorkStep(Do(p, e));
    assert (steps + [last])[..|steps|] == steps;
    AdvancingKeepsLineage(RunSteps(steps), Do(p, e), RunSteps(steps).history);
  }

  lemma EnteringOnlyMoves(p: Project, e: Event)
    requires p.state != Complete && Do(p, e).state == Complete
    ensures var q := Do(p, e);
      && EventSteps(p, e) == [WorkStep(q)] && Apply(p, WorkStep(q)) == q
      && q == p.(state := q.state, pendingInput := q.pendingInput, reviewNotes := q.reviewNotes)
  {
    CompleteOnlyThroughLastGate(p, e);
  }

  /** The gate does not look at the input. */
  lemma InputIsNoMatter(steps: seq<Step>, g: GateView)
    requires GateClear(RunSteps(steps).project.(pendingInput := ""), 4, g)
    ensures IsOneLineage(RunSteps(steps))
  {
    var p := RunSteps(steps).project;
    var q := p.(pendingInput := "");
    forall k: Stage
      ensures RulesClear(q, k) <==> RulesClear(p, k)
      ensures HasParserError(q, k) <==> HasParserError(p, k)
    {
      assert StaleBlockers(q, k) == StaleBlockers(p, k);
    }
    forall k: Stage ensures Actionable(q, k) <==> Actionable(p, k) {}
    assert GateClear(p, 4, g);
    ClearFinalGateMeansOneLineage(steps, g);
  }

  // ----- which events keep the cleared stages fresh -------------------------------------------

  predicate Counted(p: Project, s: Stage) { s in p.outputs && s in p.versions }

  predicate Settled(p: Project, s: Stage) { Counted(p, s) && !Flagged(p, s) }

  /** Every stage below the level has a counted, unflagged output; so does a stage under review, flag aside. */
  ghost predicate ClearedStagesAreFresh(p: Project)
  {
    && (forall s: Stage :: s <= Level(p.state) ==> Settled(p, s))
    && (p.state.Review? ==> Counted(p, p.state.stage))
  }

  /** What a move to another state newly claims is so already. */
  ghost predicate ClaimsOnlySettled(p: Project, target: WorkflowState)
  {
    && (forall s: Stage :: Level(p.state) < s <= Level(target) ==> Settled(p, s))
    && (target.Review? && target.stage > Level(p.state) ==> Counted(p, target.stage))
  }

  /** The guard: no edit of a stage below the last cleared one, and no move onto unsettled stages. */
  ghost predicate KeepsFresh(p: Project, e: Event)
  {
    match e
    case Edit(stage, _, _, _) => stage >= Level(p.state)
    case DirectAdvance(stage, gate) => Advances(p, stage, gate) ==> ClaimsOnlySettled(p, NextState(stage))
    case Recovery(target) => Recover(p, target).Ok? ==> ClaimsOnlySettled(p, ParseState(target))
    case Revision(stage, _, _, _) => ClaimsOnlySettled(p, Running(stage))
    case RollbackRequest(from, to, _, running, _) =>
      1 <= to < from ==> ClaimsOnlySettled(p, if running then Running(to) else Review(to))
    case _ => true
  }

  /** A move that changes no output, no version and no flag up to its level keeps freshness exactly by that guard. */
  lemma MoveKeepsFreshIff(p: Project, q: Project)
    requires ClearedStagesAreFresh(p)
    requires q.outputs == p.outputs && q.versions == p.versions
    requires forall s: Stage :: s <= Level(q.state) ==> (Flagged(q, s) <==> Flagged(p, s))
    ensures ClearedStagesAreFresh(q) <==> ClaimsOnlySettled(p, q.state)
  {
    forall s: Stage
      ensures Counted(q, s) <==> Counted(p, s)
      ensures s <= Level(q.state) ==> (Settled(q, s) <==> Settled(p, s))
    {}
    if q.state.Review? && q.state.stage <= Level(p.state) { assert Settled(p, q.state.stage); }
  }

  lemma RevisionKeepsFreshIff(p: Project, stage: Stage, reason: string, note: string, author: string)
    requires ClearedStagesAreFresh(p)
    ensures ClearedStagesAreFresh(Revise(p, stage, reason, note, author).project) <==> ClaimsOnlySettled(p, Running(stage))
  {
    var superseded := p.(actions := SupersedeActions(p.actions, stage, reason, author));
    InvalidateEffect(superseded, stage, stage + 1, reason, author);
    var q := Revise(p, stage, reason, note, author).project;
    forall s: Stage | s <= Level(q.state) ensures Flagged(q, s) <==> Flagged(p, s) {
      assert Flagged(superseded, s) <==> Flagged(p, s);
    }
    MoveKeepsFreshIff(p, q);
  }

  lemma RollbackKeepsFreshIff(p: Project, from: Stage, to: int, reason: string, running: bool, author: string)
    requires ClearedStagesAreFresh(p)
    ensures ClearedStagesAreFresh(Rollback(p, from, to, reason, running, author).project) <==>
      (1 <= to < from ==> ClaimsOnlySettled(p, if running then Running(to) else Review(to)))
  {
    var q := Rollback(p, from, to, reason, running, author).project;
    if 1 <= to < from {
      var superseded := p.(actions := SupersedeRange(p.actions, to + 1, from, reason, author));
      InvalidateEffect(superseded, to, to + 1, reason, author);
      forall s: Stage | s <= Level(q.state) ensures Flagged(q, s) <==> Flagged(p, s) {
        assert Flagged(superseded, s) <==> Flagged(p, s);
      }
      MoveKeepsFreshIff(p, q);
    }
  }

  lemma EditKeepsFreshIff(p: Project, stage: Stage, parserError: Option<string>, actionId: string, created: seq<HumanAction>)
    requires ClearedStagesAreFresh(p)
    ensures ClearedStagesAreFresh(EditOutput(p, stage, parserError, actionId, created)) <==> stage >= Level(p.state)
  {
    var edited := p.(outputs := p.outputs + {stage}, parserErrors := PutParserError(p.parserErrors, stage, parserError));
    CommitEffect(edited, stage, "edited", actionId);
    var committed, q := CommitOutput(edited, stage, "edited", actionId), EditOutput(p, stage, parserError, actionId, created);
    forall s: Stage
      ensures Flagged(q, s) <==> Flagged(committed, s)
      ensures Flagged(edited, s) <==> Flagged(p, s)
      ensures Counted(p, s) ==> Counted(q, s)
      ensures s <= stage && Settled(p, s) ==> Settled(q, s)
    {}
    assert q.state == p.state;
    if stage < Level(p.state) {
      var s: Stage := Level(p.state);
      assert Settled(p, s) && !Settled(q, s);
    } else {
      forall s: Stage | s <= Level(q.state) ensures Settled(q, s) { assert Settled(p, s); }
    }
  }

  lemma StageRunKeepsFresh(q: Project, stage: Stage, run: Execution)
    requires q.state == Running(stage) && ClearedStagesAreFresh(q)
    ensures ClearedStagesAreFresh(RunStage(q, stage, run).project)
  {
    match run
    case ModelFailed(_, _, _) =>
      forall s: Stage | s < stage ensures Settled(RunStage(q, stage, run).project, s) { assert Settled(q, s); }
    case Produced(parserError, created, gateError) =>
      var executed := q.(outputs := q.outputs + {stage},
                         parserErrors := PutParserError(q.parserErrors, stage, parserError));
      CommitEffect(executed, stage, "regenerated", "");
      var r := RunStage(q, stage, run).project;
      var committed := CommitOutput(executed, stage, "regenerated", "");
      forall s: Stage | s <= Level(r.state) ensures Settled(r, s) {
        assert Settled(q, s);
        assert Flagged(q, s) <==> Flagged(executed, s);
        assert Flagged(committed, s) <==> Flagged(r, s);
      }
  }

  lemma ReviewKeepsFresh(q: Project, stage: Stage, t: Turn)
    requires q.state == Review(stage) && ClearedStagesAreFresh(q)
    ensures ClearedStagesAreFresh(NodeStageReview(q, stage, t).project)
  {
    match t.reply
    case Approve => ApprovalKeepsFresh(q, stage, t.gate);
    case ReviseWith(note) => RevisionKeepsFreshIff(q, stage, "review", note, "");
    case Back => RollbackKeepsFreshIff(q, stage, stage - 1, "review", false, "");
    case BackToDesign => RollbackKeepsFreshIff(q, 3, 2, "review", true, "");
    case NotUnderstood =>
  }

  lemma ApprovalKeepsFresh(q: Project, stage: Stage, g: GateView)
    requires q.state == Review(stage) && ClearedStagesAreFresh(q)
    ensures ClearedStagesAreFresh(AdvanceStage(q, stage, g).project)
  {
    var r := AdvanceStage(q, stage, g).project;
    forall s: Stage ensures Flagged(r, s) <==> Flagged(q, s) {}
    MoveKeepsFreshIff(q, r);
    if GateClear(q, stage, g) { assert Settled(q, stage); }
  }

  lemma TurnKeepsFresh(p: Project, t: Turn)
    requires ClearedStagesAreFresh(p)
    ensures ClearedStagesAreFresh(Do(p, Chat(t)))
  {
    if Advanceable(p) {
      var q := p.(pendingInput := "");
      forall s: Stage ensures Settled(q, s) <==> Settled(p, s) {}
      match q.state
      case Running(stage) => StageRunKeepsFresh(q, stage, t.run);
      case Review(stage) => ReviewKeepsFresh(q, stage, t);
      case _ =>
    }
  }

  lemma AdvanceKeepsFreshIff(p: Project, stage: Stage, g: GateView)
    requires ClearedStagesAreFresh(p)
    ensures ClearedStagesAreFresh(AdvanceStage(p, stage, g).project) <==>
      (Advances(p, stage, g) ==> ClaimsOnlySettled(p, NextState(stage)))
  {
    if Advances(p, stage, g) { MoveKeepsFreshIff(p, AdvanceStage(p, stage, g).project); }
  }

  lemma RecoveryKeepsFreshIff(p: Project, target: string)
    requires ClearedStagesAreFresh(p) && Recover(p, target).Ok?
    ensures ClearedStagesAreFresh(Recover(p, target).value) <==> ClaimsOnlySettled(p, ParseState(target))
  {
    MoveKeepsFreshIff(p, Recover(p, target).value);
  }

  /** Whatever the event, the cleared stages stay fresh exactly if the guard holds; no turn and no other work fails it. */
  lemma ClearedStagesStayFreshIff(p: Project, e: Event)
    requires ClearedStagesAreFresh(p)
    ensures ClearedStagesAreFresh(Do(p, e)) <==> KeepsFresh(p, e)
  {
    match e
    case Chat(turn) => TurnKeepsFresh(p, turn);
    case Edit(stage, parserError, actionId, created) => EditKeepsFreshIff(p, stage, parserError, actionId, created);
    case Revision(stage, reason, note, author) => RevisionKeepsFreshIff(p, stage, reason, note, author);
    case RollbackRequest(from, to, reason, running, author) => RollbackKeepsFreshIff(p, from, to, reason, running, author);
    case DirectAdvance(stage, gate) => AdvanceKeepsFreshIff(p, stage, gate);
    case Recovery(target) => if Recover(p, target).Ok? { RecoveryKeepsFreshIff(p, target); }
    case Failure(_) =>
    case Work(_, _, _, _, _) => MoveKeepsFreshIff(p, Do(p, e));
  }

  ghost predicate AllKeepFresh(events: seq<Event>)
  {
    forall n :: 0 <= n < |events| ==> KeepsFresh(After(events[..n]), events[n])
  }

  lemma {:induction false} ClearedStagesStayFresh(events: seq<Event>)
    requires AllKeepFresh(events)
    ensures ClearedStagesAreFresh(After(events))
  {
    if events != [] {
      var n := |events| - 1;
      forall m | 0 <= m < n ensures KeepsFresh(After(events[..n][..m]), events[..n][m]) {
        assert events[..n][..m] == events[..m];
      }
      ClearedStagesStayFresh(events[..n]);
      ClearedStagesStayFreshIff(After(events[..n]), events[n]);
    }
  }

  /** Then COMPLETE means one fresh lineage not only when it is entered but as long as it stands, with all stages counted. */
  lemma CompleteStaysOneLineage(events: seq<Event>)
    requires AllKeepFresh(events) && After(events).state == Complete
    ensures RunSteps(AsLineage(events)).project == After(events) && IsOneLineage(RunSteps(AsLineage(events)))
    ensures forall s: Stage :: s in After(events).versions
  {
    ClearedStagesStayFresh(events);
    HistoryRefinesLineage(events);
    FreshCompleteIsOneLineage(AsLineage(events));
  }

  lemma FreshCompleteIsOneLineage(steps: seq<Step>)
    requires ClearedStagesAreFresh(RunSteps(steps).project) && RunSteps(steps).project.state == Complete
    ensures IsOneLineage(RunSteps(steps)) && forall s: Stage :: s in RunSteps(steps).project.versions
  {
    var p := RunSteps(steps).project;
    forall s: Stage ensures s in p.outputs && s in p.versions && s !in StaleKeys(p) { assert Settled(p, s); }
    OutputsAreOneLineage(steps);
  }

  // ----- leaving a blocked state -----------------------------------------------------------

  /** A recovery, or a request: those do not ask whether the session is blocked. */
  predicate Unblocks(p: Project, e: Event)
  {
    match e
    case Recovery(target) => Resumable(ParseState(target))
    case Revision(_, _, _, _) => true
    case RollbackRequest(from, to, _, _, _) => 0 <= to < from
    case _ => false
  }

  predicate IsGuarded(e: Event) { e.Chat? || e.DirectAdvance? || e.Recovery? }

  /** A blocked session is unblocked exactly by a recovery or such a request; a guarded event that does not changes nothing. */
  lemma UnblockedIff(p: Project, e: Event)
    requires Blocked(p.state)
    ensures !Blocked(Do(p, e).state) <==> Unblocks(p, e)
    ensures IsGuarded(e) && !Unblocks(p, e) ==> Do(p, e) == p
    ensures IsGuarded(e) && Unblocks(p, e) ==> e.Recovery? && Recover(p, e.target).Ok?
  {
    match e
    case Recovery(target) => RecoveryIsExact(p, target);
    case Edit(stage, parserError, actionId, created) => EditKeepsState(p, stage, parserError, actionId, created);
    case _ =>
  }

  lemma EventOnBlocked(p: Project, events: seq<Event>, i: nat)
    requires i < |events| && Blocked(Run(p, events[..i]).state)
    ensures var before, after := Run(p, events[..i]), Run(p, events[..i + 1]);
      && (!Blocked(after.state) <==> Unblocks(before, events[i]))
      && (IsGuarded(events[i]) && !Unblocks(before, events[i]) ==> after == before)
      && (IsGuarded(events[i]) && Unblocks(before, events[i]) ==> events[i].Recovery? && Recover(before, events[i].target).Ok?)
  {
    assert events[..i + 1][..i] == events[..i];
    UnblockedIff(Run(p, events[..i]), events[i]);
  }

  ghost predicate BlockedUpTo(p: Project, events: seq<Event>, n: nat)
    requires n <= |events|
  {
    forall j :: 0 <= j <= n ==> Blocked(Run(p, events[..j]).state)
  }

  lemma {:induction false} GuardedEventsLeaveBlocked(p: Project, events: seq<Event>, n: nat)
    requires n <= |events| && BlockedUpTo(p, events, n) && forall j :: 0 <= j < n ==> IsGuarded(events[j])
    ensures Run(p, events[..n]) == p
  {
    if n > 0 {
      GuardedEventsLeaveBlocked(p, events, n - 1);
      EventOnBlocked(p, events, n - 1);
    }
  }

  /**
    A session that leaves a blocked state did so by the first unblocking event; until then it was blocked, and
    unchanged if only turns, advances and recoveries were tried. Of those, only a successful recovery unblocks.
   */
  lemma {:induction false} OnlyUnblockingUnblocks(p: Project, events: seq<Event>) returns (i: nat)
    requires Blocked(p.state) && !Blocked(Run(p, events).state)
    ensures i < |events| && Unblocks(Run(p, events[..i]), events[i])
    ensures BlockedUpTo(p, events, i)
    ensures (forall j :: 0 <= j < i ==> IsGuarded(events[j])) ==> Run(p, events[..i]) == p
    ensures IsGuarded(events[i]) ==> events[i].Recovery? && Recover(Run(p, events[..i]), events[i].target).Ok?
    decreases |events|
  {
    var n := |events| - 1;
    assert events[..n + 1] == events;
    if BlockedUpTo(p, events, n) {
      i := n;
      EventOnBlocked(p, events, n);
      if forall j :: 0 <= j < n ==> IsGuarded(events[j]) { GuardedEventsLeaveBlocked(p, events, n); }
    } else {
      var m :| 0 <= m <= n && !Blocked(Run(p, events[..m]).state);
      i := OnlyUnblockingUnblocks(p, events[..m]);
      assert forall j :: 0 <= j <= i ==> events[..m][..j] == events[..j];
    }
  }
}
