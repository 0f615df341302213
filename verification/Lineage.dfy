/**
  Stage lineage: the version counters, recorded upstream versions and stale flags that
  regenerate, edit, revise and rollback keep, and what the gate may conclude from them.
 */
module Lineage {
  import opened Prelude
  import opened Models

  type Stage = n: int | 1 <= n <= 4 witness 1

  datatype WorkflowState =
    | Init | Running(stage: Stage) | Review(stage: Stage) | Iterating
    | Complete | Failed | RecoveryRequired | Unknown(raw: string)

  datatype StaleMark = StaleMark(
    stale: bool,
    because: Stage,
    reason: string,
    outputExists: bool,
    recorded: map<Stage, int>,
    upstream: map<Stage, int>)

  /** The part of a session the workflow services read and write. */
  datatype Project = Project(
    state: WorkflowState,
    lastError: string,
    pendingInput: string,
    outputs: set<Stage>,
    versions: map<Stage, int>,
    dependencies: map<Stage, map<Stage, int>>,
    staleness: map<Stage, StaleMark>,
    parserErrors: map<Stage, string>,
    actions: seq<HumanAction>,
    reviewNotes: map<Stage, string>,
    iterationCount: int)

  const FRESH: Project := Project(Init, "", "", {}, map[], map[], map[], map[], [], map[], 0)

  /** Some operations raise after part of their effect has happened. */
  datatype Outcome = Outcome(project: Project, raised: bool)

  // ----- versions ---------------------------------------------------------

  /** A stage that was never counted reads as version 1. */
  function CurrentVersion(versions: map<Stage, int>, stage: Stage): int
  {
    if stage in versions then versions[stage] else 1
  }

  /** Actions and interrupt records name a stage by any number. */
  function VersionById(versions: map<Stage, int>, stageId: int): int
  {
    if 1 <= stageId <= 4 then CurrentVersion(versions, stageId) else 1
  }

  lemma ReadsAsOneUnlessCounted(versions: map<Stage, int>, stageId: int)
    ensures VersionById(versions, stageId) == if 1 <= stageId && stageId <= 4 && stageId in versions then versions[stageId] else 1
  {
  }

  /** Counting starts from 0, so the first count of a stage still reads as version 1. */
  function BumpVersion(versions: map<Stage, int>, stage: Stage): map<Stage, int>
  {
    versions[stage := (if stage in versions then versions[stage] else 0) + 1]
  }

  /** A bump never lowers what is read, and raises it exactly when the stage was counted before. */
  lemma BumpIsVisibleIffCounted(versions: map<Stage, int>, stage: Stage, other: Stage)
    ensures CurrentVersion(versions, other) <= CurrentVersion(BumpVersion(versions, stage), other)
    ensures CurrentVersion(versions, stage) < CurrentVersion(BumpVersion(versions, stage), stage)
            <==> stage in versions
  {
  }

  function UpstreamVersions(versions: map<Stage, int>, stage: Stage): map<Stage, int>
  {
    map u: Stage | 1 <= u < stage :: CurrentVersion(versions, u)
  }

  function RecordDependencies(p: Project, stage: Stage): Project
  {
    p.(dependencies := p.dependencies[stage := UpstreamVersions(p.versions, stage)],
       staleness := p.staleness - {stage})
  }

  // ----- superseding actions ----------------------------------------------

  predicate ShouldSupersede(a: HumanAction, stage: int)
  {
    a.stageId == stage &&
    (a.status == Pending ||
     (a.status == Resolved && a.decision == "reject" &&
      (a.actionType == ApproveType || a.actionType == EditType || a.actionType == EscalateType)))
  }

  function SupersedeOne(a: HumanAction, stage: int, reason: string, author: string): HumanAction
  {
    if ShouldSupersede(a, stage) then a.(status := Superseded, note := reason, supersededBy := author) else a
  }

  function SupersedeActions(actions: seq<HumanAction>, stage: int, reason: string, author: string): seq<HumanAction>
  {
    seq(|actions|, i requires 0 <= i < |actions| => SupersedeOne(actions[i], stage, reason, author))
  }

  function CountToSupersede(actions: seq<HumanAction>, stage: int): nat
  {
    if actions == [] then 0
    else CountToSupersede(actions[..|actions| - 1], stage) + if ShouldSupersede(actions[|actions| - 1], stage) then 1 else 0
  }

  /** The count is the number of actions that superseding changes. */
  lemma {:induction false} CountsWhatItSupersedes(actions: seq<HumanAction>, stage: int, reason: string, author: string)
    ensures CountToSupersede(actions, stage) == |Filter(actions, (a: HumanAction) => SupersedeOne(a, stage, reason, author) != a)|
  {
    if actions != [] {
      CountsWhatItSupersedes(actions[..|actions| - 1], stage, reason, author);
      FilterNext(actions, |actions| - 1, (a: HumanAction) => SupersedeOne(a, stage, reason, author) != a);
      assert actions[..|actions|] == actions;
    }
  }

  function SupersedeRange(actions: seq<HumanAction>, lo: int, hi: int, reason: string, author: string): seq<HumanAction>
    decreases hi - lo
  {
    if lo > hi then actions
    else SupersedeRange(SupersedeActions(actions, lo, reason, author), lo + 1, hi, reason, author)
  }

  // ----- invalidation -----------------------------------------------------

  predicate HasState(p: Project, stage: Stage)
  {
    || stage in p.outputs
    || (stage in p.dependencies && p.dependencies[stage] != map[])
    || (stage in p.parserErrors && p.parserErrors[stage] != "")
    || exists a :: a in p.actions && a.stageId == stage
  }

  /** A stage without state has nothing to outdate: no output, no recorded upstream, no parser error and no action. */
  lemma NoStateIff(p: Project, stage: Stage)
    ensures !HasState(p, stage) <==>
      && stage !in p.outputs && (stage in p.dependencies ==> p.dependencies[stage] == map[])
      && (stage in p.parserErrors ==> p.parserErrors[stage] == "") && (forall a :: a in p.actions ==> a.stageId != stage)
  {
  }

  predicate Flagged(p: Project, stage: Stage)
  {
    stage in p.staleness && p.staleness[stage].stale
  }

  function MarkStale(p: Project, changed: Stage, stage: Stage, reason: string, author: string): Project
  {
    var recorded := if stage in p.dependencies then p.dependencies[stage] else map[];
    var mark := StaleMark(true, changed, reason, stage in p.outputs, recorded, UpstreamVersions(p.versions, stage));
    p.(staleness := p.staleness[stage := mark],
       parserErrors := p.parserErrors - {stage},
       actions := SupersedeActions(p.actions, stage, "Downstream stage marked stale: " + reason, author))
  }

  /** Flags every stage from `next` on that has anything to invalidate. */
  function InvalidateFrom(p: Project, changed: Stage, next: int, reason: string, author: string): Project
    requires 1 <= next <= 5
    decreases 5 - next
  {
    if next == 5 then p
    else InvalidateFrom(if HasState(p, next) then MarkStale(p, changed, next, reason, author) else p,
                        changed, next + 1, reason, author)
  }

  function Invalidate(p: Project, changed: Stage, reason: string, author: string): Project
  {
    InvalidateFrom(p, changed, changed + 1, reason, author)
  }

  lemma SupersedeKeepsStages(actions: seq<HumanAction>, stage: int, reason: string, author: string, k: int)
    ensures (exists a :: a in SupersedeActions(actions, stage, reason, author) && a.stageId == k)
            <==> (exists a :: a in actions && a.stageId == k)
  {
    var after := SupersedeActions(actions, stage, reason, author);
    if a :| a in after && a.stageId == k {
      var i :| 0 <= i < |after| && after[i] == a;
      assert actions[i] in actions && actions[i].stageId == k;
    }
    if a :| a in actions && a.stageId == k {
      var i :| 0 <= i < |actions| && actions[i] == a;
      assert after[i] in after && after[i].stageId == k;
    }
  }

  lemma MarkStaleKeepsState(p: Project, changed: Stage, stage: Stage, reason: string, author: string, k: Stage)
    requires k != stage
    ensures HasState(MarkStale(p, changed, stage, reason, author), k) <==> HasState(p, k)
  {
    SupersedeKeepsStages(p.actions, stage, "Downstream stage marked stale: " + reason, author, k);
  }

  function StatefulStages(p: Project, next: int): seq<int>
    requires 1 <= next <= 5
    decreases 5 - next
  {
    if next == 5 then []
    else (if HasState(p, next) then [next] else []) + StatefulStages(p, next + 1)
  }

  lemma {:induction false} MarkStaleKeepsStatefulStages(p: Project, changed: Stage, stage: Stage, reason: string,
                                                        author: string, next: int)
    requires stage < next <= 5
    ensures StatefulStages(MarkStale(p, changed, stage, reason, author), next) == StatefulStages(p, next)
    decreases 5 - next
  {
    if next < 5 {
      MarkStaleKeepsStatefulStages(p, changed, stage, reason, author, next + 1);
      MarkStaleKeepsState(p, changed, stage, reason, author, next);
    }
  }

  lemma InvalidateUnfolds(p: Project, q: Project, changed: Stage, stage: Stage, reason: string, author: string)
    requires q == if HasState(p, stage) then MarkStale(p, changed, stage, reason, author) else p
    ensures InvalidateFrom(p, changed, stage, reason, author) == InvalidateFrom(q, changed, stage + 1, reason, author)
    ensures StatefulStages(p, stage) ==
            (if HasState(p, stage) then [stage] else []) + StatefulStages(q, stage + 1)
  {
    MarkStaleKeepsStatefulStages(p, changed, stage, reason, author, stage + 1);
  }

  /** Invalidation writes flags, parser errors and actions, and nothing else. */
  lemma {:induction false} InvalidateFrame(p: Project, changed: Stage, next: int, reason: string, author: string)
    requires 1 <= next <= 5
    ensures var q := InvalidateFrom(p, changed, next, reason, author);
      q == p.(staleness := q.staleness, parserErrors := q.parserErrors, actions := q.actions)
    decreases 5 - next
  {
    if next < 5 {
      InvalidateFrame(if HasState(p, next) then MarkStale(p, changed, next, reason, author) else p,
                      changed, next + 1, reason, author);
    }
  }

  /** A stage from `next` on that had any state ends up flagged because of the changed stage; other flags stay. */
  lemma {:induction false} InvalidateFlag(p: Project, changed: Stage, next: int, reason: string, author: string, k: Stage)
    requires 1 <= next <= 5
    ensures var q := InvalidateFrom(p, changed, next, reason, author);
      if k >= next && HasState(p, k) then k in q.staleness && q.staleness[k].stale && q.staleness[k].because == changed
      else (k in q.staleness <==> k in p.staleness) && (k in q.staleness ==> q.staleness[k] == p.staleness[k])
    decreases 5 - next
  {
    if next < 5 {
      if HasState(p, next) {
        InvalidateFlag(MarkStale(p, changed, next, reason, author), changed, next + 1, reason, author, k);
        if k != next { MarkStaleKeepsState(p, changed, next, reason, author, k); }
      } else {
        InvalidateFlag(p, changed, next + 1, reason, author, k);
      }
    }
  }

  /**
    What invalidation does, stage by stage: a stage at or after `next` that had any state ends up
    flagged because of the changed stage, every other flag is as before, and outputs, versions and
    recorded dependencies are untouched.
   */
  lemma InvalidateEffect(p: Project, changed: Stage, next: int, reason: string, author: string)
    requires 1 <= next <= 5
    ensures var q := InvalidateFrom(p, changed, next, reason, author);
      && q.outputs == p.outputs && q.versions == p.versions && q.dependencies == p.dependencies
      && q.state == p.state && q.reviewNotes == p.reviewNotes && q.iterationCount == p.iterationCount
      && q.lastError == p.lastError && q.pendingInput == p.pendingInput
      && (forall k: Stage :: k >= next && HasState(p, k) ==>
            k in q.staleness && q.staleness[k].stale && q.staleness[k].because == changed)
      && (forall k: Stage :: k < next || !HasState(p, k) ==>
            (k in q.staleness <==> k in p.staleness) && (k in q.staleness ==> q.staleness[k] == p.staleness[k]))
  {
    InvalidateFrame(p, changed, next, reason, author);
    forall k: Stage
      ensures var q := InvalidateFrom(p, changed, next, reason, author);
        if k >= next && HasState(p, k) then k in q.staleness && q.staleness[k].stale && q.staleness[k].because == changed
        else (k in q.staleness <==> k in p.staleness) && (k in q.staleness ==> q.staleness[k] == p.staleness[k])
    {
      InvalidateFlag(p, changed, next, reason, author, k);
    }
  }

  /** Invalidation supersedes the open actions of every later stage and leaves every other action as it was. */
  lemma {:induction false} InvalidateSettlesAction(p: Project, changed: Stage, next: int, reason: string,
                                                   author: string, i: nat)
    requires 1 <= next <= 5 && i < |p.actions|
    ensures var q := InvalidateFrom(p, changed, next, reason, author);
      && |q.actions| == |p.actions|
      && q.actions[i] == (
           if next <= p.actions[i].stageId <= 4
           then SupersedeOne(p.actions[i], p.actions[i].stageId, "Downstream stage marked stale: " + reason, author)
           else p.actions[i])
    decreases 5 - next
  {
    if next < 5 {
      assert p.actions[i] in p.actions;
      var m := if HasState(p, next) then MarkStale(p, changed, next, reason, author) else p;
      InvalidateSettlesAction(m, changed, next + 1, reason, author, i);
    }
  }

  /** Invalidation drops the parser error of every later stage that had state, and no other. */
  lemma {:induction false} InvalidateClearsParserErrors(p: Project, changed: Stage, next: int, reason: string,
                                                        author: string, k: Stage)
    requires 1 <= next <= 5
    ensures var q := InvalidateFrom(p, changed, next, reason, author);
      if k >= next && HasState(p, k) then k !in q.parserErrors
      else (k in q.parserErrors <==> k in p.parserErrors) &&
           (k in q.parserErrors ==> q.parserErrors[k] == p.parserErrors[k])
    decreases 5 - next
  {
    if next < 5 {
      if HasState(p, next) {
        InvalidateClearsParserErrors(MarkStale(p, changed, next, reason, author), changed, next + 1, reason, author, k);
        if k != next { MarkStaleKeepsState(p, changed, next, reason, author, k); }
      } else {
        InvalidateClearsParserErrors(p, changed, next + 1, reason, author, k);
      }
    }
  }

  // ----- the operations ---------------------------------------------------

  /** Count a new output, record what it was built on, and flag everything built on the old one. */
  function CommitOutput(p: Project, stage: Stage, reason: string, author: string): Project
  {
    Invalidate(RecordDependencies(p.(versions := BumpVersion(p.versions, stage)), stage), stage, reason, author)
  }

  /** What the executor and the review gate did; both are outside the model. */
  datatype Execution =
    | ModelFailed(error: string, placeholder: bool, reRaised: bool)
    | Produced(parserError: Option<string>, created: seq<HumanAction>, gateError: Option<string>)

  function PutParserError(errors: map<Stage, string>, stage: Stage, error: Option<string>): map<Stage, string>
  {
    match error case None => errors - {stage} case Some(e) => errors[stage := e]
  }

  /** One execution of a stage node. Stage 1 may create an empty output before the model is called. */
  function RunStage(p: Project, stage: Stage, run: Execution): Outcome
  {
    match run
    case ModelFailed(error, placeholder, reRaised) =>
      Outcome(p.(outputs := if stage == 1 && placeholder then p.outputs + {1} else p.outputs,
                 lastError := error, state := Running(stage)), reRaised)
    case Produced(parserError, created, gateError) =>
      var executed := p.(outputs := p.outputs + {stage},
                         parserErrors := PutParserError(p.parserErrors, stage, parserError));
      var committed := CommitOutput(executed, stage, "regenerated", "");
      var reviewed := committed.(actions := committed.actions + created);
      match gateError
      case None => Outcome(reviewed.(state := Review(stage)), false)
      case Some(error) => Outcome(reviewed.(lastError := error, state := Running(stage)), false)
  }

  /** A reviewer's structured edit of a stage output, applied through a resolved action. */
  function EditOutput(p: Project, stage: Stage, parserError: Option<string>, actionId: string,
                      created: seq<HumanAction>): Project
  {
    var edited := p.(outputs := p.outputs + {stage},
                     parserErrors := PutParserError(p.parserErrors, stage, parserError));
    var committed := CommitOutput(edited, stage, "edited", actionId);
    committed.(actions := SupersedeActions(committed.actions, stage, "edited", actionId) + created)
  }

  function Revise(p: Project, stage: int, reason: string, note: string, author: string): Outcome
  {
    var q := p.(actions := SupersedeActions(p.actions, stage, reason, author));
    if !(1 <= stage <= 4) then Outcome(q, true)
    else
      var r := Invalidate(q, stage, reason, author);
      Outcome(r.(state := Running(stage), reviewNotes := r.reviewNotes[stage := "revise: " + note],
                 iterationCount := r.iterationCount + 1), false)
  }

  function Rollback(p: Project, from: int, to: int, reason: string, targetRunning: bool, author: string): Outcome
  {
    if to < 0 || to >= from then Outcome(p, true)
    else
      var q := p.(actions := SupersedeRange(p.actions, to + 1, from, reason, author));
      if to > 4 then Outcome(q, true)
      else
        var r := if to >= 1 then Invalidate(q, to, reason, author) else q;
        var target := if to == 0 then Init else if targetRunning then Running(to) else Review(to);
        Outcome(r.(state := target, iterationCount := 0), from > 4)
  }

  lemma {:induction false} SupersedeRangeAt(actions: seq<HumanAction>, lo: int, hi: int, reason: string, author: string, i: nat)
    requires i < |actions|
    ensures var after := SupersedeRange(actions, lo, hi, reason, author);
      && |after| == |actions|
      && after[i] == if lo <= actions[i].stageId <= hi then SupersedeOne(actions[i], actions[i].stageId, reason, author)
                     else actions[i]
    decreases hi - lo
  {
    if lo <= hi { SupersedeRangeAt(SupersedeActions(actions, lo, reason, author), lo + 1, hi, reason, author, i); }
  }

  /**
    A rollback settles the open and rejected actions of the stages it goes back over, also when it goes back to the
    start; those of later stages are settled only with the invalidation, which a rollback to the start does not do.
   */
  lemma RollbackSettlesAction(p: Project, from: int, to: int, reason: string, running: bool, author: string, i: nat)
    requires 0 <= to < from && to <= 4 && i < |p.actions|
    ensures var q, a := Rollback(p, from, to, reason, running, author).project, p.actions[i];
      && |q.actions| == |p.actions|
      && q.actions[i] == (
           if to < a.stageId <= from then SupersedeOne(a, a.stageId, reason, author)
           else if to >= 1 && from < a.stageId <= 4 then
             SupersedeOne(a, a.stageId, "Downstream stage marked stale: " + reason, author)
           else a)
  {
    var q := p.(actions := SupersedeRange(p.actions, to + 1, from, reason, author));
    SupersedeRangeAt(p.actions, to + 1, from, reason, author, i);
    if to >= 1 { InvalidateSettlesAction(q, to, to + 1, reason, author, i); }
  }

  /** What stage `k` looks like after an invalidation because of `changed`, and that nothing beside the stages changed. */
  ghost predicate IsOutdatedOnly(p: Project, q: Project, changed: Stage, reason: string, k: Stage)
  {
    if k > changed && HasState(p, k) then
      && k !in q.parserErrors && k in q.staleness
      && q.staleness[k] == StaleMark(true, changed, reason, k in p.outputs, if k in p.dependencies then p.dependencies[k] else map[],
                                     UpstreamVersions(p.versions, k))
    else
      && (k in q.parserErrors <==> k in p.parserErrors) && (k in q.parserErrors ==> q.parserErrors[k] == p.parserErrors[k])
      && (k in q.staleness <==> k in p.staleness) && (k in q.staleness ==> q.staleness[k] == p.staleness[k])
  }

  lemma {:induction false} InvalidateMark(p: Project, changed: Stage, next: int, reason: string, author: string, k: Stage)
    requires 1 <= next <= 5 && k >= next && HasState(p, k)
    ensures var q := InvalidateFrom(p, changed, next, reason, author);
      k in q.staleness &&
      q.staleness[k] == StaleMark(true, changed, reason, k in p.outputs, if k in p.dependencies then p.dependencies[k] else map[],
                                  UpstreamVersions(p.versions, k))
    decreases 5 - next
  {
    var m := if HasState(p, next) then MarkStale(p, changed, next, reason, author) else p;
    if k == next {
      InvalidateFlag(m, changed, next + 1, reason, author, k);
    } else {
      if HasState(p, next) { MarkStaleKeepsState(p, changed, next, reason, author, k); }
      InvalidateMark(m, changed, next + 1, reason, author, k);
    }
  }

  lemma InvalidateOutdates(p: Project, actions: seq<HumanAction>, changed: Stage, reason: string, author: string, k: Stage)
    requires HasState(p.(actions := actions), k) <==> HasState(p, k)
    ensures IsOutdatedOnly(p, Invalidate(p.(actions := actions), changed, reason, author), changed, reason, k)
  {
    var q := p.(actions := actions);
    InvalidateFlag(q, changed, changed + 1, reason, author, k);
    InvalidateClearsParserErrors(q, changed, changed + 1, reason, author, k);
    if k > changed && HasState(q, k) { InvalidateMark(q, changed, changed + 1, reason, author, k); }
  }

  lemma {:induction false} SupersedeRangeKeepsStages(actions: seq<HumanAction>, lo: int, hi: int, reason: string, author: string,
                                                     k: int)
    ensures (exists a :: a in SupersedeRange(actions, lo, hi, reason, author) && a.stageId == k)
            <==> (exists a :: a in actions && a.stageId == k)
    decreases hi - lo
  {
    if lo <= hi {
      SupersedeKeepsStages(actions, lo, reason, author, k);
      SupersedeRangeKeepsStages(SupersedeActions(actions, lo, reason, author), lo + 1, hi, reason, author, k);
    }
  }

  /**
    A revision fails exactly for a stage that does not exist. Else the stage runs again with the note to work on, the
    later stages are outdated because of it, and outputs, versions and records stay as they are.
   */
  lemma RevisionLeadsTo(p: Project, at: int, reason: string, note: string, author: string)
    ensures var o := Revise(p, at, reason, note, author);
      && (o.raised <==> !(1 <= at <= 4))
      && (o.raised ==> o.project == p.(actions := o.project.actions))
      && (!o.raised ==>
            && o.project == p.(state := Running(at), reviewNotes := p.reviewNotes[at := "revise: " + note],
                               iterationCount := p.iterationCount + 1, staleness := o.project.staleness,
                               parserErrors := o.project.parserErrors, actions := o.project.actions)
            && forall k: Stage :: IsOutdatedOnly(p, o.project, at, reason, k))
  {
    if 1 <= at <= 4 {
      var actions := SupersedeActions(p.actions, at, reason, author);
      InvalidateFrame(p.(actions := actions), at, at + 1, reason, author);
      var q := Revise(p, at, reason, note, author).project;
      forall k: Stage ensures IsOutdatedOnly(p, q, at, reason, k) {
        SupersedeKeepsStages(p.actions, at, reason, author, k);
        InvalidateOutdates(p, actions, at, reason, author, k);
      }
    }
  }

  /** What a revision does to each action. */
  lemma RevisionSettlesAction(p: Project, at: Stage, reason: string, note: string, author: string, i: nat)
    requires i < |p.actions|
    ensures var q, a := Revise(p, at, reason, note, author).project, p.actions[i];
      && |q.actions| == |p.actions|
      && q.actions[i] == (
           if a.stageId == at then SupersedeOne(a, at, reason, author)
           else if at < a.stageId <= 4 then SupersedeOne(a, a.stageId, "Downstream stage marked stale: " + reason, author)
           else a)
  {
    InvalidateSettlesAction(p.(actions := SupersedeActions(p.actions, at, reason, author)), at, at + 1, reason, author, i);
  }

  /**
    A rollback is refused unless it goes back to an earlier stage that exists, or to the start; it then moves there, under
    review or running as asked, starts counting iterations anew, and outdates what is later, except from the start.
   */
  lemma RollbackLeadsTo(p: Project, from: int, to: int, reason: string, running: bool, author: string)
    ensures var o := Rollback(p, from, to, reason, running, author);
      && (o.raised <==> to < 0 || to >= from || from > 4)
      && (to < 0 || to >= from ==> o.project == p)
      && (4 < to < from ==> o.project == p.(actions := o.project.actions))
      && (0 <= to < from && to <= 4 ==>
            && o.project == p.(state := if to == 0 then Init else if running then Running(to) else Review(to),
                               iterationCount := 0, staleness := o.project.staleness,
                               parserErrors := o.project.parserErrors, actions := o.project.actions)
            && (to == 0 ==> o.project.staleness == p.staleness && o.project.parserErrors == p.parserErrors)
            && (to >= 1 ==> forall k: Stage :: IsOutdatedOnly(p, o.project, to, reason, k)))
  {
    if 1 <= to < from && to <= 4 {
      var actions := SupersedeRange(p.actions, to + 1, from, reason, author);
      InvalidateFrame(p.(actions := actions), to, to + 1, reason, author);
      var q := Rollback(p, from, to, reason, running, author).project;
      forall k: Stage ensures IsOutdatedOnly(p, q, to, reason, k) {
        SupersedeRangeKeepsStages(p.actions, to + 1, from, reason, author, k);
        InvalidateOutdates(p, actions, to, reason, author, k);
      }
    }
  }

  /** What `CommitOutput` has recorded when it starts to invalidate. */
  function Recorded(p: Project, stage: Stage): Project
  {
    RecordDependencies(p.(versions := BumpVersion(p.versions, stage)), stage)
  }

  /**
    A commit counts the output and records what it was made from; the stage is no longer outdated, the later stages that
    had state are, by the new versions, and nothing else changes.
   */
  lemma CommitLeadsTo(p: Project, stage: Stage, reason: string, author: string)
    ensures var q := CommitOutput(p, stage, reason, author);
      && q == p.(versions := p.versions[stage := (if stage in p.versions then p.versions[stage] else 0) + 1],
                 dependencies := p.dependencies[stage := UpstreamVersions(p.versions, stage)],
                 staleness := q.staleness, parserErrors := q.parserErrors, actions := q.actions)
      && stage !in q.staleness
      && forall k: Stage :: k != stage ==> IsOutdatedOnly(p.(versions := q.versions), q, stage, reason, k)
  {
    var q, r := CommitOutput(p, stage, reason, author), Recorded(p, stage);
    BumpLeavesUpstream(p.versions, stage, stage);
    InvalidateFrame(r, stage, stage + 1, reason, author);
    InvalidateFlag(r, stage, stage + 1, reason, author, stage);
    forall k: Stage | k != stage ensures IsOutdatedOnly(p.(versions := q.versions), q, stage, reason, k) {
      InvalidateOutdates(r, r.actions, stage, reason, author, k);
      assert HasState(r, k) <==> HasState(p.(versions := q.versions), k);
    }
  }

  /** What a commit does to each action. */
  lemma CommitSettlesAction(p: Project, stage: Stage, reason: string, author: string, i: nat)
    requires i < |p.actions|
    ensures var q, a := CommitOutput(p, stage, reason, author), p.actions[i];
      && |q.actions| == |p.actions|
      && q.actions[i] == (
           if stage < a.stageId <= 4 then SupersedeOne(a, a.stageId, "Downstream stage marked stale: " + reason, author) else a)
  {
    InvalidateSettlesAction(Recorded(p, stage), stage, stage + 1, reason, author, i);
  }

  lemma CommitKeepsLength(p: Project, stage: Stage, reason: string, author: string)
    ensures |CommitOutput(p, stage, reason, author).actions| == |p.actions|
  {
    if p.actions != [] {
      CommitSettlesAction(p, stage, reason, author, 0);
    } else {
      InvalidateAddsNoAction(Recorded(p, stage), stage, stage + 1, reason, author);
    }
  }

  lemma {:induction false} InvalidateAddsNoAction(p: Project, changed: Stage, next: int, reason: string, author: string)
    requires 1 <= next <= 5
    ensures |InvalidateFrom(p, changed, next, reason, author).actions| == |p.actions|
    decreases 5 - next
  {
    if next < 5 {
      InvalidateAddsNoAction(if HasState(p, next) then MarkStale(p, changed, next, reason, author) else p,
                             changed, next + 1, reason, author);
    }
  }

  /**
    A run that produced an output commits it, keeps or drops the parser error of the stage by what this output gave, and
    adds the review actions; a failed one changes nothing but the state and the error, and an empty first output.
   */
  lemma RunLeadsTo(p: Project, stage: Stage, run: Execution)
    ensures var q := RunStage(p, stage, run).project;
      match run
      case ModelFailed(error, placeholder, _) =>
        q == p.(state := Running(stage), lastError := error,
                outputs := if stage == 1 && placeholder then p.outputs + {1} else p.outputs)
      case Produced(parserError, created, gateError) =>
        && q.outputs == p.outputs + {stage} && q.versions == BumpVersion(p.versions, stage)
        && (stage in q.parserErrors <==> parserError.Some?) && (parserError.Some? ==> q.parserErrors[stage] == parserError.value)
        && |q.actions| == |p.actions| + |created| && q.actions[|p.actions|..] == created
        && q.reviewNotes == p.reviewNotes && q.iterationCount == p.iterationCount && q.pendingInput == p.pendingInput
        && q.state == if gateError.None? then Review(stage) else Running(stage)
  {
    if run.Produced? {
      var executed := p.(outputs := p.outputs + {stage},
                         parserErrors := PutParserError(p.parserErrors, stage, run.parserError));
      CommitLeadsTo(executed, stage, "regenerated", "");
      CommitKeepsLength(executed, stage, "regenerated", "");
      InvalidateClearsParserErrors(Recorded(executed, stage), stage, stage + 1, "regenerated", "", stage);
    }
  }

  /** An edit commits the output in the same way, settles the actions of the stage itself too, and leaves the state. */
  lemma EditLeadsTo(p: Project, stage: Stage, parserError: Option<string>, actionId: string, created: seq<HumanAction>)
    ensures var q := EditOutput(p, stage, parserError, actionId, created);
      && q.state == p.state && q.lastError == p.lastError && q.reviewNotes == p.reviewNotes && q.iterationCount == p.iterationCount
      && q.outputs == p.outputs + {stage} && q.versions == BumpVersion(p.versions, stage)
      && (stage in q.parserErrors <==> parserError.Some?) && (parserError.Some? ==> q.parserErrors[stage] == parserError.value)
      && |q.actions| == |p.actions| + |created| && q.actions[|p.actions|..] == created
      && forall i :: 0 <= i < |p.actions| ==>
           var a := p.actions[i];
           q.actions[i] ==
             if a.stageId == stage then SupersedeOne(a, stage, "edited", actionId)
             else if stage < a.stageId <= 4 then SupersedeOne(a, a.stageId, "Downstream stage marked stale: edited", actionId)
             else a
  {
    var edited := p.(outputs := p.outputs + {stage}, parserErrors := PutParserError(p.parserErrors, stage, parserError));
    CommitLeadsTo(edited, stage, "edited", actionId);
    CommitKeepsLength(edited, stage, "edited", actionId);
    forall i: nat | i < |p.actions|
      ensures CommitOutput(edited, stage, "edited", actionId).actions[i] ==
        if stage < p.actions[i].stageId <= 4
        then SupersedeOne(p.actions[i], p.actions[i].stageId, "Downstream stage marked stale: edited", actionId) else p.actions[i]
    {
      assert "Downstream stage marked stale: " + "edited" == "Downstream stage marked stale: edited";
      CommitSettlesAction(edited, stage, "edited", actionId, i);
    }
    InvalidateClearsParserErrors(Recorded(edited, stage), stage, stage + 1, "edited", actionId, stage);
  }

  /** Exactly the pending actions of the stage and those rejected there are superseded, with reason and author. */
  lemma SupersededIff(a: HumanAction, stage: int, reason: string, author: string)
    ensures SupersedeOne(a, stage, reason, author) ==
      if a.stageId == stage && (a.status == Pending || (a.status == Resolved && a.decision == "reject" &&
                                                        a.actionType in {ApproveType, EditType, EscalateType}))
      then a.(status := Superseded, note := reason, supersededBy := author) else a
  {
  }

  datatype Step =
    | StageRun(stage: Stage, run: Execution)
    | OutputEdited(stage: Stage, parserError: Option<string>, actionId: string, created: seq<HumanAction>)
    | Revised(at: int, reason: string, note: string, author: string)
    | RolledBack(from: int, to: int, reason: string, targetRunning: bool, author: string)
    // every other service: any change of workflow state, actions, parser errors and notes
    | OtherWork(state: WorkflowState, error: string, input: string, actions: seq<HumanAction>,
                parserErrors: map<Stage, string>, notes: map<Stage, string>)

  function Apply(p: Project, s: Step): Project
  {
    match s
    case StageRun(stage, run) => RunStage(p, stage, run).project
    case OutputEdited(stage, parserError, actionId, created) => EditOutput(p, stage, parserError, actionId, created)
    case Revised(at, reason, note, author) => Revise(p, at, reason, note, author).project
    case RolledBack(from, to, reason, targetRunning, author) => Rollback(p, from, to, reason, targetRunning, author).project
    case OtherWork(state, error, input, actions, parserErrors, notes) =>
      p.(state := state, lastError := error, pendingInput := input, actions := actions,
         parserErrors := parserErrors, reviewNotes := notes)
  }

  // ----- the true lineage, which the code does not store --------------------

  /** How often each stage output was made, and which makes of its upstream each stage was made from. */
  datatype History = History(made: map<Stage, nat>, builtFrom: map<Stage, map<Stage, nat>>)

  const NO_HISTORY: History := History(map[], map[])

  function Made(h: History, stage: Stage): nat
  {
    if stage in h.made then h.made[stage] else 0
  }

  function UpstreamMade(h: History, stage: Stage): map<Stage, nat>
  {
    map u: Stage | 1 <= u < stage :: Made(h, u)
  }

  function MakeOutput(h: History, stage: Stage): History
  {
    History(h.made[stage := Made(h, stage) + 1], h.builtFrom[stage := UpstreamMade(h, stage)])
  }

  function Remember(h: History, s: Step): History
  {
    match s
    case StageRun(stage, Produced(_, _, _)) => MakeOutput(h, stage)
    case OutputEdited(stage, _, _, _) => MakeOutput(h, stage)
    case _ => h
  }

  datatype Chronicle = Chronicle(project: Project, history: History)

  function RunSteps(steps: seq<Step>): Chronicle
  {
    if steps == [] then Chronicle(FRESH, NO_HISTORY)
    else
      var before := RunSteps(steps[..|steps| - 1]);
      var s := steps[|steps| - 1];
      Chronicle(Apply(before.project, s), Remember(before.history, s))
  }

  /** Stage `k` was made from the upstream outputs that stand now. */
  ghost predicate BuiltOnCurrent(h: History, k: Stage)
  {
    k in h.builtFrom && h.builtFrom[k] == UpstreamMade(h, k)
  }

  ghost predicate RecordsCurrent(p: Project, k: Stage)
  {
    k in p.dependencies && p.dependencies[k] == UpstreamVersions(p.versions, k)
  }

  ghost predicate LineageInvariant(c: Chronicle)
  {
    var p, h := c.project, c.history;
    && (forall k: Stage :: k >= 2 && k in p.outputs ==>
          Flagged(p, k) || (RecordsCurrent(p, k) && BuiltOnCurrent(h, k)))
    && (forall k: Stage :: k in p.dependencies ==> forall u: Stage :: u in p.dependencies[k] ==>
          u < k && p.dependencies[k][u] <= CurrentVersion(p.versions, u))
    && (forall k: Stage :: k in p.staleness ==> k >= 2)
  }

  /** The effect of committing an output on what is flagged and recorded about one stage. */
  lemma CommitEffect(p: Project, stage: Stage, reason: string, author: string)
    requires stage in p.outputs
    ensures var q := CommitOutput(p, stage, reason, author);
      && q.outputs == p.outputs && q.versions == BumpVersion(p.versions, stage) && q.state == p.state
      && q.dependencies == p.dependencies[stage := UpstreamVersions(p.versions, stage)]
      && (forall k: Stage :: k < stage ==> (Flagged(q, k) <==> Flagged(p, k)))
      && !Flagged(q, stage)
      && (forall k: Stage :: k > stage && k in p.outputs ==> Flagged(q, k))
      && (forall k: Stage :: k in q.staleness ==> k > stage || k in p.staleness)
  {
    var bumped := p.(versions := BumpVersion(p.versions, stage));
    var recorded := RecordDependencies(bumped, stage);
    BumpLeavesUpstream(p.versions, stage, stage);
    InvalidateEffect(recorded, stage, stage + 1, reason, author);
    var q := CommitOutput(p, stage, reason, author);
    forall k: Stage | k > stage && k in p.outputs ensures Flagged(q, k) {
      assert HasState(recorded, k);
    }
  }

  lemma CommitKeepsLineage(p: Project, h: History, stage: Stage, reason: string, author: string)
    requires LineageInvariant(Chronicle(p.(outputs := p.outputs - {stage}), h))
    requires stage in p.outputs
    ensures LineageInvariant(Chronicle(CommitOutput(p, stage, reason, author), MakeOutput(h, stage)))
  {
    CommitEffect(p, stage, reason, author);
    var q := CommitOutput(p, stage, reason, author);
    var h' := MakeOutput(h, stage);
    forall k: Stage | k >= 2 && k in q.outputs && !Flagged(q, k)
      ensures RecordsCurrent(q, k) && BuiltOnCurrent(h', k)
    {
      var before := p.(outputs := p.outputs - {stage});
      assert k < stage ==> k in before.outputs && !Flagged(before, k);
      CommittedRecordsCurrent(before, q, h, stage, k);
    }
    forall k: Stage, u: Stage | k in q.dependencies && u in q.dependencies[k]
      ensures u < k && q.dependencies[k][u] <= CurrentVersion(q.versions, u)
    {
      BumpIsVisibleIffCounted(p.versions, stage, u);
    }
  }

  lemma BumpLeavesUpstream(versions: map<Stage, int>, stage: Stage, k: Stage)
    requires k <= stage
    ensures UpstreamVersions(BumpVersion(versions, stage), k) == UpstreamVersions(versions, k)
  {
  }

  lemma MakeLeavesUpstream(h: History, stage: Stage, k: Stage)
    requires k <= stage
    ensures UpstreamMade(MakeOutput(h, stage), k) == UpstreamMade(h, k)
  {
  }

  lemma CommittedRecordsCurrent(p: Project, q: Project, h: History, stage: Stage, k: Stage)
    requires k <= stage
    requires k < stage ==> RecordsCurrent(p, k) && BuiltOnCurrent(h, k)
    requires q.versions == BumpVersion(p.versions, stage)
    requires q.dependencies == p.dependencies[stage := UpstreamVersions(p.versions, stage)]
    ensures RecordsCurrent(q, k) && BuiltOnCurrent(MakeOutput(h, stage), k)
  {
    BumpLeavesUpstream(p.versions, stage, k);
    MakeLeavesUpstream(h, stage, k);
  }

  /** Whatever changes neither outputs, versions nor records, and only adds flags downstream, keeps the lineage. */
  lemma FlagsOnlyKeepLineage(p: Project, q: Project, h: History)
    requires LineageInvariant(Chronicle(p, h))
    requires q.outputs == p.outputs || q.outputs == p.outputs + {1}
    requires q.versions == p.versions && q.dependencies == p.dependencies
    requires forall k: Stage :: Flagged(p, k) ==> Flagged(q, k)
    requires forall k: Stage :: k in q.staleness ==> k >= 2
    ensures LineageInvariant(Chronicle(q, h))
  {
    forall k: Stage | k >= 2 && k in q.outputs && !Flagged(q, k)
      ensures RecordsCurrent(q, k) && BuiltOnCurrent(h, k)
    {
      assert RecordsCurrent(p, k) && BuiltOnCurrent(h, k);
      assert UpstreamVersions(q.versions, k) == UpstreamVersions(p.versions, k);
    }
  }

  lemma OutputIsMade(p: Project, h: History, stage: Stage, parserError: Option<string>, reason: string, author: string,
                     state: WorkflowState, error: string, actions: seq<HumanAction>)
    requires LineageInvariant(Chronicle(p, h))
    ensures var made := p.(outputs := p.outputs + {stage},
                           parserErrors := PutParserError(p.parserErrors, stage, parserError));
      LineageInvariant(Chronicle(CommitOutput(made, stage, reason, author).(state := state, lastError := error,
                                                                            actions := actions),
                                 MakeOutput(h, stage)))
  {
    var made := p.(outputs := p.outputs + {stage},
                   parserErrors := PutParserError(p.parserErrors, stage, parserError));
    FlagsKept(p, made.(outputs := made.outputs - {stage}), h);
    CommitKeepsLineage(made, h, stage, reason, author);
    var committed := CommitOutput(made, stage, reason, author);
    FlagsOnlyKeepLineage(committed, committed.(state := state, lastError := error, actions := actions),
                         MakeOutput(h, stage));
  }

  lemma FlagsKept(p: Project, q: Project, h: History)
    requires LineageInvariant(Chronicle(p, h))
    requires q.outputs <= p.outputs
    requires q.versions == p.versions && q.dependencies == p.dependencies && q.staleness == p.staleness
    ensures LineageInvariant(Chronicle(q, h))
  {
    forall k: Stage | k >= 2 && k in q.outputs && !Flagged(q, k)
      ensures RecordsCurrent(q, k) && BuiltOnCurrent(h, k)
    {
      assert RecordsCurrent(p, k) && BuiltOnCurrent(h, k);
      assert UpstreamVersions(q.versions, k) == UpstreamVersions(p.versions, k);
    }
  }

  lemma InvalidateOnlyFlags(p: Project, q: Project, h: History, stage: Stage, reason: string, author: string)
    requires LineageInvariant(Chronicle(p, h))
    requires q == p.(actions := q.actions)
    ensures LineageInvariant(Chronicle(Invalidate(q, stage, reason, author), h))
  {
    InvalidateEffect(q, stage, stage + 1, reason, author);
    var r := Invalidate(q, stage, reason, author);
    forall k: Stage ensures (Flagged(p, k) ==> Flagged(r, k)) && (k in r.staleness ==> k >= 2) {
      assert Flagged(q, k) <==> Flagged(p, k);
    }
    FlagsOnlyKeepLineage(p, r, h);
  }

  lemma RevisionKeepsLineage(p: Project, h: History, at: int, reason: string, note: string, author: string)
    requires LineageInvariant(Chronicle(p, h))
    ensures LineageInvariant(Chronicle(Revise(p, at, reason, note, author).project, h))
  {
    var q := Revise(p, at, reason, note, author).project;
    if 1 <= at <= 4 {
      var superseded := p.(actions := SupersedeActions(p.actions, at, reason, author));
      InvalidateOnlyFlags(p, superseded, h, at, reason, author);
      FlagsOnlyKeepLineage(Invalidate(superseded, at, reason, author), q, h);
    } else {
      FlagsOnlyKeepLineage(p, q, h);
    }
  }

  lemma RollbackKeepsLineage(p: Project, h: History, from: int, to: int, reason: string, running: bool, author: string)
    requires LineageInvariant(Chronicle(p, h))
    ensures LineageInvariant(Chronicle(Rollback(p, from, to, reason, running, author).project, h))
  {
    var q := Rollback(p, from, to, reason, running, author).project;
    if 1 <= to < from && to <= 4 {
      var superseded := p.(actions := SupersedeRange(p.actions, to + 1, from, reason, author));
      InvalidateOnlyFlags(p, superseded, h, to, reason, author);
      FlagsOnlyKeepLineage(Invalidate(superseded, to, reason, author), q, h);
    } else {
      FlagsOnlyKeepLineage(p, q, h);
    }
  }

  lemma StepKeepsLineage(c: Chronicle, s: Step)
    requires LineageInvariant(c)
    ensures LineageInvariant(Chronicle(Apply(c.project, s), Remember(c.history, s)))
  {
    var p, h := c.project, c.history;
    var q := Apply(p, s);
    match s
    case StageRun(stage, ModelFailed(_, _, _)) =>
      FlagsOnlyKeepLineage(p, q, h);
    case StageRun(stage, Produced(parserError, created, gateError)) =>
      OutputIsMade(p, h, stage, parserError, "regenerated", "", q.state, q.lastError, q.actions);
    case OutputEdited(stage, parserError, actionId, created) =>
      OutputIsMade(p, h, stage, parserError, "edited", actionId, q.state, q.lastError, q.actions);
    case Revised(at, reason, note, author) => RevisionKeepsLineage(p, h, at, reason, note, author);
    case RolledBack(from, to, reason, running, author) => RollbackKeepsLineage(p, h, from, to, reason, running, author);
    case OtherWork(_, _, _, _, _, _) =>
      FlagsOnlyKeepLineage(p, q, h);
  }

  /** Over every run: a stage output is flagged, or it was made from exactly what stands upstream now. */
  lemma {:induction false} LineageHoldsInEveryRun(steps: seq<Step>)
    ensures LineageInvariant(RunSteps(steps))
  {
    if steps != [] {
      LineageHoldsInEveryRun(steps[..|steps| - 1]);
      StepKeepsLineage(RunSteps(steps[..|steps| - 1]), steps[|steps| - 1]);
    }
  }

  /** The counters: each counts how often its output was made, and every output but an empty first one was made. */
  ghost predicate CountersCount(c: Chronicle)
  {
    && (forall k: Stage :: if k in c.project.versions then c.project.versions[k] == Made(c.history, k) > 0
                           else Made(c.history, k) == 0)
    && (forall k: Stage :: k >= 2 && k in c.project.outputs ==> k in c.project.versions)
  }

  lemma RevisionKeepsOutputs(p: Project, at: int, reason: string, note: string, author: string)
    ensures var q := Revise(p, at, reason, note, author).project; q.outputs == p.outputs && q.versions == p.versions
  {
    if 1 <= at <= 4 {
      InvalidateFrame(p.(actions := SupersedeActions(p.actions, at, reason, author)), at, at + 1, reason, author);
    }
  }

  lemma RollbackKeepsOutputs(p: Project, from: int, to: int, reason: string, targetRunning: bool, author: string)
    ensures var q := Rollback(p, from, to, reason, targetRunning, author).project;
      q.outputs == p.outputs && q.versions == p.versions
  {
    if 1 <= to < from && to <= 4 {
      InvalidateFrame(p.(actions := SupersedeRange(p.actions, to + 1, from, reason, author)), to, to + 1, reason, author);
    }
  }

  lemma MakingCounts(p: Project, q: Project, h: History, stage: Stage)
    requires CountersCount(Chronicle(p, h))
    requires q.versions == BumpVersion(p.versions, stage) && q.outputs == p.outputs + {stage}
    ensures CountersCount(Chronicle(q, MakeOutput(h, stage)))
  {
    forall k: Stage ensures Made(MakeOutput(h, stage), k) == Made(h, k) + if k == stage then 1 else 0 {}
  }

  lemma StepKeepsCounters(c: Chronicle, s: Step)
    requires CountersCount(c)
    ensures CountersCount(Chronicle(Apply(c.project, s), Remember(c.history, s)))
  {
    var p := c.project;
    match s
    case StageRun(stage, Produced(parserError, _, _)) =>
      CommitEffect(p.(outputs := p.outputs + {stage}, parserErrors := PutParserError(p.parserErrors, stage, parserError)),
                   stage, "regenerated", "");
      MakingCounts(p, Apply(p, s), c.history, stage);
    case OutputEdited(stage, parserError, actionId, _) =>
      CommitEffect(p.(outputs := p.outputs + {stage}, parserErrors := PutParserError(p.parserErrors, stage, parserError)),
                   stage, "edited", actionId);
      MakingCounts(p, Apply(p, s), c.history, stage);
    case Revised(at, reason, note, author) => RevisionKeepsOutputs(p, at, reason, note, author);
    case RolledBack(from, to, reason, running, author) => RollbackKeepsOutputs(p, from, to, reason, running, author);
    case _ =>
  }

  /** In every run a version counter is the number of times its output was made. */
  lemma {:induction false} CountersCountMakes(steps: seq<Step>)
    ensures CountersCount(RunSteps(steps))
  {
    if steps != [] {
      CountersCountMakes(steps[..|steps| - 1]);
      StepKeepsCounters(RunSteps(steps[..|steps| - 1]), steps[|steps| - 1]);
    }
  }

  // ----- what the gate and the approval service read ------------------------

  datatype StaleBlocker = FlaggedStale(stage: Stage, mark: StaleMark) | NewerUpstream(stage: Stage, newer: set<Stage>)

  function NewerDependencies(p: Project, stage: Stage): set<Stage>
  {
    if stage !in p.dependencies then {}
    else set u | u in p.dependencies[stage] && p.dependencies[stage][u] < CurrentVersion(p.versions, u)
  }

  /** The gate's stale-dependency collector: one blocker for the flag, one for outdated versions. */
  function StaleBlockers(p: Project, stage: Stage): seq<StaleBlocker>
  {
    if stage !in p.outputs then []
    else
      (if Flagged(p, stage) then [FlaggedStale(stage, p.staleness[stage])] else []) +
      (if NewerDependencies(p, stage) != {} then [NewerUpstream(stage, NewerDependencies(p, stage))] else [])
  }

  predicate StageOutputsPresent(p: Project)
  {
    forall k: Stage :: k in p.outputs
  }

  function StaleKeys(p: Project): set<Stage>
  {
    set k | k in p.staleness && p.staleness[k].stale
  }

  /**
    In every reachable session the collector is silent about a stage with an output exactly when the
    stage is not flagged; then the stage was made from the current upstream outputs, so the version
    comparison never blocks a stage the flag does not block already.
   */
  lemma StaleCollectorIsExact(steps: seq<Step>, k: Stage)
    requires k in RunSteps(steps).project.outputs
    ensures var c := RunSteps(steps);
      && (StaleBlockers(c.project, k) == [] <==> !Flagged(c.project, k))
      && (NewerDependencies(c.project, k) != {} ==> Flagged(c.project, k))
      && (StaleBlockers(c.project, k) == [] && k >= 2 ==>
            RecordsCurrent(c.project, k) && BuiltOnCurrent(c.history, k))
  {
    LineageHoldsInEveryRun(steps);
    var p := RunSteps(steps).project;
    if k >= 2 && RecordsCurrent(p, k) {
      assert NewerDependencies(p, k) == {};
    }
    if k == 1 && 1 in p.dependencies {
      assert p.dependencies[1] == map[];
    }
  }

  /** Four outputs and no stale key: each stage was made from the outputs of all earlier stages that stand now. */
  lemma FreshOutputsFormOneLineage(steps: seq<Step>, u: Stage, k: Stage)
    requires StageOutputsPresent(RunSteps(steps).project) && StaleKeys(RunSteps(steps).project) == {}
    requires u < k
    ensures var c := RunSteps(steps);
      && k in c.project.dependencies && u in c.project.dependencies[k]
      && c.project.dependencies[k][u] == CurrentVersion(c.project.versions, u)
      && k in c.history.builtFrom && u in c.history.builtFrom[k]
      && c.history.builtFrom[k][u] == Made(c.history, u)
  {
    LineageHoldsInEveryRun(steps);
    var c := RunSteps(steps);
    assert k in c.project.outputs && k !in StaleKeys(c.project);
    assert RecordsCurrent(c.project, k) && BuiltOnCurrent(c.history, k);
    assert u in UpstreamVersions(c.project.versions, k) && u in UpstreamMade(c.history, k);
  }
}
