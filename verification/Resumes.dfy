/**
  Running turns and resuming: one turn through the guarded graph, consuming a resume value once, and the durable
  retry of resumes. The engine's `invoke` is a reply the environment chooses; a log of its successful resumes is
  kept beside the state.
 */
module Resumes {
  import opened Prelude
  import opened Models
  import opened Lineage
  import Workflow
  import opened Interrupts

  /** A successful engine resume, with what held when it was sent. */
  datatype Acknowledgement =
    | EngineResumed(record: InterruptRecord, action: HumanAction, currentVersion: int)
    | GateResumed(gateRecord: InterruptRecord)

  /** The session as the execution layer sees it; the log exists for the proofs only. */
  datatype Board = Board(business: Project, records: seq<InterruptRecord>, log: seq<Acknowledgement>)

  function IdOf(e: Acknowledgement): string
  {
    match e case EngineResumed(r, _, _) => r.interruptId case GateResumed(r) => r.interruptId
  }

  function Count(log: seq<Acknowledgement>, interruptId: string): nat
  {
    if log == [] then 0
    else Count(log[..|log| - 1], interruptId) + if IdOf(log[|log| - 1]) == interruptId then 1 else 0
  }

  // ----- consuming a resume ----------------------------------------------------------------

  datatype EngineReply = NotInstalled | Raised | Succeeded

  /** Everything that must agree before a resume value is sent to the engine. */
  predicate MaySend(r: InterruptRecord, action: Option<HumanAction>, versions: map<Stage, int>, env: Env)
  {
    && action.Some? && action.value.status == Resolved && action.value.decision != "reject"
    && r.thread == env.thread && r.namespace == env.namespace && r.nodeName == NodeNameOf(action.value)
    && r.stageId == action.value.stageId && r.version == action.value.version
    && r.version == VersionById(versions, r.stageId)
    && r.resume.Some? && r.resume.value.allowContinue == Some(true)
    && r.resume.value.actionId == Some(r.actionId) && r.resume.value.decision == Some(action.value.decision)
  }

  predicate IsResumable(r: InterruptRecord)
  {
    r.status == ResumedInterrupt && r.consumedAt.None?
  }

  function Consume(b: Board, actionId: string, env: Env, engine: EngineReply): Board
  {
    var actions := b.business.actions;
    var synced := Sync(b.records, actions, env);
    var found, action := RecordOf(synced, actionId), FirstAction(actions, actionId);
    if found.None? || !IsResumable(found.value) || !MaySend(found.value, action, b.business.versions, env) ||
       engine != Succeeded
    then b.(records := synced)
    else
      b.(records := Sync(MarkConsumed(synced, found.value.interruptId, env.now), actions, env),
         log := b.log + [EngineResumed(found.value, action.value, VersionById(b.business.versions, found.value.stageId))])
  }

  /** An engine that is missing or fails changes nothing but the synchronised records, so the resume can be retried. */
  lemma FailedResumeIsRetryable(b: Board, actionId: string, env: Env, later: Env, engine: EngineReply)
    requires engine != Succeeded && later.thread == env.thread && later.namespace == env.namespace
    ensures var failed := Consume(b, actionId, env, engine);
      && failed == b.(records := Sync(b.records, b.business.actions, env))
      && (Consume(b, actionId, env, Succeeded).log != b.log <==> Consume(failed, actionId, later, Succeeded).log != failed.log)
  {
    SyncIsIdempotent(b.records, b.business.actions, env, later);
  }

  // ----- one turn -----------------------------------------------------------------------------

  datatype TurnOutcome = TurnOutcome(board: Board, ranNode: bool, raised: bool)

  /** Dispatch, route and, before the engine interrupts, the gate; an engine failure is raised, never retried here. */
  function OneTurn(b: Board, t: Workflow.Turn, env: Env): TurnOutcome
  {
    var synced := Sync(b.records, b.business.actions, env);
    if Awaiting(synced, b.business.actions).Some? then TurnOutcome(b.(records := synced), false, false)
    else
      var step := Workflow.RunOneStep(b.business, t);
      if step.raised then TurnOutcome(b.(business := step.project, records := synced), true, true)
      else
        TurnOutcome(b.(business := step.project, records := Sync(synced, step.project.actions, env)), true, false)
  }

  /**
    For every list of actions, a stage node runs exactly when synchronisation leaves every pending blocking action
    a closed record; that is when each had one already, or shares its identifier with a blocking action that closes
    it. Otherwise nothing but the records changes.
   */
  lemma NodeRunsIffEveryReviewIsClosed(b: Board, t: Workflow.Turn, env: Env)
    requires RecordsSound(b.records, env.ids)
    ensures var actions := b.business.actions;
      && (OneTurn(b, t, env).ranNode <==>
            forall a :: a in actions && IsPendingBlocking(a) ==> IsClosedFor(Sync(b.records, actions, env), a))
      && (OneTurn(b, t, env).ranNode <==>
            forall a :: a in actions && IsPendingBlocking(a) ==> IsClosedFor(b.records, a) || ClosesFrom(actions, 0, a))
    ensures !OneTurn(b, t, env).ranNode ==> OneTurn(b, t, env).board.business == b.business
  {
    AwaitedIffAnOpenRecord(b.records, b.business.actions, env);
    AwaitedIffAnOpenReview(b.records, b.business.actions, env);
  }

  /**
    Where a turn leads: what the node did if it ran, with its exception, and else nothing; no engine resume is logged, and
    the records are in step with the actions as they are then, unless the node raised.
   */
  lemma TurnLeadsTo(b: Board, t: Workflow.Turn, env: Env, later: Env)
    requires later.thread == env.thread
    ensures var o, step := OneTurn(b, t, env), Workflow.RunOneStep(b.business, t);
      && o.board.log == b.log && (o.raised <==> o.ranNode && step.raised)
      && o.board.business == (if o.ranNode then step.project else b.business)
      && (!o.raised ==> Sync(o.board.records, o.board.business.actions, later) == o.board.records)
      && (o.raised ==> o.board.records == Sync(b.records, b.business.actions, env))
  {
    SyncIsIdempotent(b.records, b.business.actions, env, later);
    SyncIsIdempotent(Sync(b.records, b.business.actions, env), Workflow.RunOneStep(b.business, t).project.actions, env, later);
  }

  /** With distinct identifiers: exactly when every pending blocking action already had a closed record. */
  lemma NodeRunsIffReviewsWereClosed(b: Board, t: Workflow.Turn, env: Env)
    requires DistinctActions(b.business.actions) && RecordsSound(b.records, env.ids)
    ensures OneTurn(b, t, env).ranNode <==>
      forall a :: a in b.business.actions && IsPendingBlocking(a) ==> IsClosedFor(b.records, a)
  {
    NodeRunsIffEveryReviewIsClosed(b, t, env);
    forall a | a in b.business.actions && IsPendingBlocking(a) ensures !ClosesFrom(b.business.actions, 0, a) {
      DistinctActionsCloseTheirOwn(b.business.actions, a);
    }
  }

  // ----- whole histories -------------------------------------------------------------------------

  datatype ExecStep =
    | SyncStep(env: Env)
    | TurnStep(turn: Workflow.Turn, env: Env)
    | ResumeStep(actionId: string, effect: Option<Effect>, env: Env)
    | CancelStep(actionId: string, effect: Option<Effect>, reason: string, env: Env)
    | ConsumeStep(actionId: string, engine: EngineReply, env: Env)
    | GateStep(value: ResumeValue, env: Env)
    // any other service: it may change anything but the records
    | BusinessStep(next: Project)

  function GateBoard(b: Board, value: ResumeValue, env: Env): Board
  {
    var actions := b.business.actions;
    var synced := Sync(b.records, actions, env);
    var i := FirstAwaiting(synced, actions);
    b.(records := GatePassed(b.records, actions, value, env),
       log := if i < |synced| then b.log + [GateResumed(synced[i])] else b.log)
  }

  function TakeExecStep(b: Board, s: ExecStep): Board
  {
    match s
    case SyncStep(env) => b.(records := Sync(b.records, b.business.actions, env))
    case TurnStep(turn, env) => OneTurn(b, turn, env).board
    case ResumeStep(id, effect, env) => b.(records := MarkResumed(b.records, b.business.actions, id, effect, env))
    case CancelStep(id, effect, reason, env) =>
      b.(records := MarkCancelled(b.records, b.business.actions, id, reason, effect, env))
    case ConsumeStep(id, engine, env) => Consume(b, id, env, engine)
    case GateStep(value, env) => GateBoard(b, value, env)
    case BusinessStep(next) => b.(business := next)
  }

  predicate HasEnv(s: ExecStep) { !s.BusinessStep? }

  /** All steps draw identifiers from the same supply of distinct ones. */
  ghost predicate DrawsFrom(s: ExecStep, ids: nat -> string)
  {
    HasEnv(s) ==> s.env.ids == ids
  }

  function AfterExec(b: Board, steps: seq<ExecStep>): Board
  {
    if steps == [] then b else TakeExecStep(AfterExec(b, steps[..|steps| - 1]), steps[|steps| - 1])
  }

  /** Each record has been acknowledged once if it is consumed and never otherwise; unused identifiers never. */
  ghost predicate LogMatches(records: seq<InterruptRecord>, log: seq<Acknowledgement>, ids: nat -> string)
  {
    forall n: nat :: Count(log, ids(n)) == if n < |records| && records[n].consumedAt.Some? then 1 else 0
  }

  /** What held for every resume sent to the engine. */
  ghost predicate LogSound(log: seq<Acknowledgement>)
  {
    forall e :: e in log && e.EngineResumed? ==>
      && e.action.status == Resolved && e.action.decision != "reject" && e.action.id == e.record.actionId
      && e.record.resume.Some? && e.record.resume.value.allowContinue == Some(true)
      && e.record.version == e.currentVersion == e.action.version
  }

  ghost predicate ExecInvariant(b: Board, ids: nat -> string)
  {
    RecordsSound(b.records, ids) && LogMatches(b.records, b.log, ids) && LogSound(b.log)
  }

  lemma CountGrows(log: seq<Acknowledgement>, e: Acknowledgement, id: string)
    ensures Count(log + [e], id) == Count(log, id) + if IdOf(e) == id then 1 else 0
  {
    assert (log + [e])[..|log|] == log;
  }

  lemma UnconsumedKeepsLog(before: seq<InterruptRecord>, after: seq<InterruptRecord>, log: seq<Acknowledgement>, ids: nat -> string)
    requires LogMatches(before, log, ids) && ConsumedAlike(before, after)
    ensures LogMatches(after, log, ids)
  {
    forall n: nat ensures Count(log, ids(n)) == if n < |after| && after[n].consumedAt.Some? then 1 else 0 {}
  }

  /** Consuming record `i` and logging it keep the books balanced. */
  lemma ConsumingKeepsLog(records: seq<InterruptRecord>, log: seq<Acknowledgement>, i: nat, now: int, e: Acknowledgement,
                          ids: nat -> string)
    requires i < |records| && records[i].consumedAt.None? && records[i].interruptId == ids(i) == IdOf(e)
    requires LogMatches(records, log, ids) && Injective(ids)
    ensures LogMatches(records[i := records[i].(consumedAt := Some(now))], log + [e], ids)
  {
    var after := records[i := records[i].(consumedAt := Some(now))];
    forall n: nat ensures Count(log + [e], ids(n)) == if n < |after| && after[n].consumedAt.Some? then 1 else 0 {
      CountGrows(log, e, ids(n));
    }
  }

  lemma PutConsumesNothing(records: seq<InterruptRecord>, r: InterruptRecord)
    requires var i := RecordIndex(records, r.actionId);
      r.consumedAt == if i < |records| then records[i].consumedAt else None
    ensures ConsumedAlike(records, Put(records, r))
  {
  }

  lemma CancellingConsumesNothing(records: seq<InterruptRecord>, actions: seq<HumanAction>, id: string, effect: Option<Effect>,
                                  reason: string, env: Env)
    ensures ConsumedAlike(records, MarkCancelled(records, actions, id, reason, effect, env))
  {
    var found := FirstAction(actions, id);
    if found.Some? && found.value.blocking {
      var a, r := found.value, Ensured(records, actions, found.value, env);
      PutConsumesNothing(records, ClosedIfPending(r, CancelledInterrupt, ResumeOf(a, effect, CancelReason(reason, a)), env.now));
    }
  }

  lemma ResumingConsumesNothing(records: seq<InterruptRecord>, actions: seq<HumanAction>, id: string, effect: Option<Effect>, env: Env)
    ensures ConsumedAlike(records, MarkResumed(records, actions, id, effect, env))
  {
    var found := FirstAction(actions, id);
    CancellingConsumesNothing(records, actions, id, effect, NOT_ALLOWED, env);
    if found.Some? && found.value.blocking {
      var a, r := found.value, Ensured(records, actions, found.value, env);
      PutConsumesNothing(records, ClosedIfPending(r, ResumedInterrupt, ResumeOf(a, effect, ""), env.now));
    }
  }

  lemma SyncKeepsInvariant(b: Board, actions: seq<HumanAction>, env: Env)
    requires ExecInvariant(b, env.ids)
    ensures ExecInvariant(b.(records := Sync(b.records, actions, env)), env.ids)
    ensures Grows(b.records, Sync(b.records, actions, env))
  {
    SyncKeepsSound(b.records, actions, 0, env);
    SyncNeverResumes(b.records, actions, 0, env);
    UnconsumedKeepsLog(b.records, Sync(b.records, actions, env), b.log, env.ids);
  }

  /** The record a successful consumption acknowledges. */
  lemma ConsumptionKeepsInvariant(b: Board, i: nat, action: HumanAction, env: Env)
    requires ExecInvariant(b, env.ids) && Injective(env.ids) && i < |b.records|
    requires IsResumable(b.records[i]) && action.id == b.records[i].actionId
    requires MaySend(b.records[i], Some(action), b.business.versions, env)
    ensures var r := b.records[i];
      var after := b.(records := MarkConsumed(b.records, r.interruptId, env.now),
                      log := b.log + [EngineResumed(r, action, VersionById(b.business.versions, r.stageId))]);
      ExecInvariant(after, env.ids) && Grows(b.records, after.records)
  {
    IdsNameOneRecord(b.records, i, env.ids);
    ConsumingKeepsSound(b.records, i, env.now, env.ids);
    ConsumingKeepsLog(b.records, b.log, i, env.now,
                      EngineResumed(b.records[i], action, VersionById(b.business.versions, b.records[i].stageId)), env.ids);
  }

  lemma ConsumeKeepsInvariant(b: Board, actionId: string, env: Env, engine: EngineReply)
    requires ExecInvariant(b, env.ids) && Injective(env.ids)
    ensures ExecInvariant(Consume(b, actionId, env, engine), env.ids)
    ensures Grows(b.records, Consume(b, actionId, env, engine).records)
  {
    var actions := b.business.actions;
    var c := b.(records := Sync(b.records, actions, env));
    SyncKeepsInvariant(b, actions, env);
    var found, action := RecordOf(c.records, actionId), FirstAction(actions, actionId);
    if found.Some? && IsResumable(found.value) && MaySend(found.value, action, b.business.versions, env) && engine == Succeeded {
      ConsumptionKeepsInvariant(c, RecordIndex(c.records, actionId), action.value, env);
      var d := c.(records := MarkConsumed(c.records, found.value.interruptId, env.now),
                  log := c.log + [EngineResumed(found.value, action.value, VersionById(b.business.versions, found.value.stageId))]);
      SyncKeepsInvariant(d, actions, env);
      GrowsOn(b.records, c.records, d.records);
      GrowsOn(b.records, d.records, Sync(d.records, actions, env));
    }
  }

  lemma GateKeepsInvariant(b: Board, value: ResumeValue, env: Env)
    requires ExecInvariant(b, env.ids) && Injective(env.ids)
    ensures ExecInvariant(GateBoard(b, value, env), env.ids)
    ensures Grows(b.records, GateBoard(b, value, env).records)
  {
    var actions := b.business.actions;
    var c := b.(records := Sync(b.records, actions, env));
    SyncKeepsInvariant(b, actions, env);
    var i := FirstAwaiting(c.records, actions);
    if i < |c.records| {
      var r := c.records[i];
      var passed := c.records[i := GateRecord(actions, r, value, env)];
      UpdateKeepsSound(c.records, i, GateRecord(actions, r, value, env), env.ids);
      UnconsumedKeepsLog(c.records, passed, c.log, env.ids);
      IdsNameOneRecord(passed, i, env.ids);
      ConsumingKeepsSound(passed, i, env.now, env.ids);
      ConsumingKeepsLog(passed, c.log, i, env.now, GateResumed(r), env.ids);
      GrowsOn(b.records, c.records, passed);
      GrowsOn(b.records, passed, GateBoard(b, value, env).records);
    }
  }

  lemma TurnKeepsInvariant(b: Board, t: Workflow.Turn, env: Env)
    requires ExecInvariant(b, env.ids)
    ensures ExecInvariant(OneTurn(b, t, env).board, env.ids) && Grows(b.records, OneTurn(b, t, env).board.records)
  {
    SyncKeepsInvariant(b, b.business.actions, env);
    var step := Workflow.RunOneStep(b.business, t);
    var c := b.(business := step.project, records := Sync(b.records, b.business.actions, env));
    assert ExecInvariant(c, env.ids);
    SyncKeepsInvariant(c, step.project.actions, env);
    GrowsOn(b.records, c.records, Sync(c.records, step.project.actions, env));
  }

  lemma StepKeepsInvariant(b: Board, s: ExecStep, ids: nat -> string)
    requires ExecInvariant(b, ids) && Injective(ids) && DrawsFrom(s, ids)
    ensures ExecInvariant(TakeExecStep(b, s), ids) && Grows(b.records, TakeExecStep(b, s).records)
  {
    match s
    case SyncStep(env) => SyncKeepsInvariant(b, b.business.actions, env);
    case TurnStep(turn, env) => TurnKeepsInvariant(b, turn, env);
    case ResumeStep(id, effect, env) =>
      MarkResumedKeepsSound(b.records, b.business.actions, id, effect, env);
      ResumingConsumesNothing(b.records, b.business.actions, id, effect, env);
      UnconsumedKeepsLog(b.records, MarkResumed(b.records, b.business.actions, id, effect, env), b.log, ids);
    case CancelStep(id, effect, reason, env) =>
      MarkCancelledKeepsSound(b.records, b.business.actions, id, reason, effect, env);
      CancellingConsumesNothing(b.records, b.business.actions, id, effect, reason, env);
      UnconsumedKeepsLog(b.records, MarkCancelled(b.records, b.business.actions, id, reason, effect, env), b.log, ids);
    case ConsumeStep(id, engine, env) => ConsumeKeepsInvariant(b, id, env, engine);
    case GateStep(value, env) => GateKeepsInvariant(b, value, env);
    case BusinessStep(_) =>
  }

  lemma LastStepKeepsInvariant(b: Board, steps: seq<ExecStep>, ids: nat -> string)
    requires steps != [] && Injective(ids) && DrawsFrom(steps[|steps| - 1], ids)
    requires ExecInvariant(AfterExec(b, steps[..|steps| - 1]), ids)
    ensures ExecInvariant(AfterExec(b, steps), ids)
    ensures Grows(AfterExec(b, steps[..|steps| - 1]).records, AfterExec(b, steps).records)
  {
    StepKeepsInvariant(AfterExec(b, steps[..|steps| - 1]), steps[|steps| - 1], ids);
  }

  /**
    Over every history from an empty record list: one record per action, identities and locators fixed, each
    record closing at most once; each acknowledged exactly once if it is consumed and never otherwise; and every
    resume sent to the engine answered an allowed, non-rejecting resolution at the current stage version.
   */
  lemma {:induction false} RecordsLiveSoundly(b: Board, steps: seq<ExecStep>, m: nat, ids: nat -> string)
    requires b.records == [] && b.log == [] && Injective(ids) && m <= |steps|
    requires forall s :: s in steps ==> DrawsFrom(s, ids)
    ensures ExecInvariant(AfterExec(b, steps), ids)
    ensures Grows(AfterExec(b, steps[..m]).records, AfterExec(b, steps).records)
  {
    if steps == [] {
      assert steps[..m] == steps;
    } else {
      var n := |steps| - 1;
      RecordsLiveSoundly(b, steps[..n], if m <= n then m else n, ids);
      LastStepKeepsInvariant(b, steps, ids);
      if m <= n {
        assert steps[..n][..m] == steps[..m];
        GrowsOn(AfterExec(b, steps[..m]).records, AfterExec(b, steps[..n]).records, AfterExec(b, steps).records);
      } else {
        assert steps[..m] == steps;
      }
    }
  }

  // ----- what was resumed was answered ------------------------------------------------------------

  /** Resumes are marked with what the decision table says of the action as it is. */
  predicate FollowsTable(b: Board, s: ExecStep)
  {
    s.ResumeStep? ==>
      var a := FirstAction(b.business.actions, s.actionId);
      a.Some? ==> s.effect == Some(ResolutionEffect(a.value, a.value.decision, a.value.payloadAfter))
  }

  /** If the record may still be sent to the engine, the action it was resumed for was answered. */
  ghost predicate IsEarned(r: InterruptRecord)
  {
    IsResumable(r) && r.resume.Some? && r.resume.value.allowContinue == Some(true) ==>
      && r.resume.value.snapshot.Some?
      && var a := r.resume.value.snapshot.value;
         a.id == r.actionId && r.resume.value.decision == Some(a.decision) && IsAnswered(a, Strip(a.decision), a.payloadAfter)
  }

  ghost predicate AllEarned(records: seq<InterruptRecord>) { forall r :: r in records ==> IsEarned(r) }

  /** Every resume sent to the engine had been answered when it was marked. */
  ghost predicate LogEarned(log: seq<Acknowledgement>)
  {
    forall e :: e in log && e.EngineResumed? ==>
      && IsResumable(e.record) && IsEarned(e.record)
      && e.record.resume.Some? && e.record.resume.value.allowContinue == Some(true)
      && e.record.resume.value.decision == Some(e.action.decision) && e.action.id == e.record.actionId
  }

  ghost predicate EarnedBoard(b: Board) { AllEarned(b.records) && LogEarned(b.log) }

  /** Records that live on without being resumed anew stay earned. */
  lemma LivingOnStaysEarned(before: seq<InterruptRecord>, after: seq<InterruptRecord>)
    requires AllEarned(before) && Grows(before, after) && ResumesNothing(before, after)
    ensures AllEarned(after)
  {
    forall i | 0 <= i < |after| ensures IsEarned(after[i]) {
      if IsResumable(after[i]) {
        assert before[i] in before && Lives(before[i], after[i]);
      }
    }
  }

  lemma SyncKeepsEarned(records: seq<InterruptRecord>, actions: seq<HumanAction>, env: Env)
    requires AllEarned(records) && RecordsSound(records, env.ids)
    ensures AllEarned(Sync(records, actions, env)) && RecordsSound(Sync(records, actions, env), env.ids)
  {
    SyncKeepsSound(records, actions, 0, env);
    SyncNeverResumes(records, actions, 0, env);
    LivingOnStaysEarned(records, Sync(records, actions, env));
  }

  lemma PutKeepsEarned(records: seq<InterruptRecord>, r: InterruptRecord)
    requires AllEarned(records) && IsEarned(r)
    ensures AllEarned(Put(records, r))
  {
  }

  lemma EnsuredIsEarned(records: seq<InterruptRecord>, actions: seq<HumanAction>, a: HumanAction, env: Env)
    requires AllEarned(records)
    ensures IsEarned(Ensured(records, actions, a, env)) && Ensured(records, actions, a, env).actionId == a.id
  {
    var i := RecordIndex(records, a.id);
    if i < |records| { assert IsEarned(records[i]); }
  }

  lemma MarkingKeepsEarned(b: Board, id: string, effect: Option<Effect>, reason: string, env: Env)
    requires AllEarned(b.records)
    ensures AllEarned(MarkCancelled(b.records, b.business.actions, id, reason, effect, env))
    ensures FollowsTable(b, ResumeStep(id, effect, env)) ==>
      AllEarned(MarkResumed(b.records, b.business.actions, id, effect, env))
  {
    var found := FirstAction(b.business.actions, id);
    if found.Some? && found.value.blocking {
      var a := found.value;
      var r := Ensured(b.records, b.business.actions, a, env);
      EnsuredIsEarned(b.records, b.business.actions, a, env);
      PutKeepsEarned(b.records, ClosedIfPending(r, CancelledInterrupt, ResumeOf(a, effect, CancelReason(reason, a)), env.now));
      PutKeepsEarned(b.records, ClosedIfPending(r, CancelledInterrupt, ResumeOf(a, effect, CancelReason(NOT_ALLOWED, a)), env.now));
      if FollowsTable(b, ResumeStep(id, effect, env)) {
        ContinuationIsEarned(a, a.decision, a.payloadAfter);
        PutKeepsEarned(b.records, ClosedIfPending(r, ResumedInterrupt, ResumeOf(a, effect, ""), env.now));
      }
    }
  }

  lemma ConsumeKeepsEarned(b: Board, actionId: string, env: Env, engine: EngineReply)
    requires EarnedBoard(b) && RecordsSound(b.records, env.ids) && Injective(env.ids)
    ensures EarnedBoard(Consume(b, actionId, env, engine))
  {
    var actions := b.business.actions;
    var synced := Sync(b.records, actions, env);
    SyncKeepsEarned(b.records, actions, env);
    var i := RecordIndex(synced, actionId);
    if i < |synced| && IsResumable(synced[i]) {
      IdsNameOneRecord(synced, i, env.ids);
      ConsumingKeepsSound(synced, i, env.now, env.ids);
      SyncKeepsEarned(MarkConsumed(synced, synced[i].interruptId, env.now), actions, env);
      assert synced[i] in synced;
    }
  }

  lemma GateKeepsEarned(b: Board, value: ResumeValue, env: Env)
    requires EarnedBoard(b) && RecordsSound(b.records, env.ids) && Injective(env.ids)
    ensures EarnedBoard(GateBoard(b, value, env))
  {
    var actions := b.business.actions;
    var synced := Sync(b.records, actions, env);
    SyncKeepsEarned(b.records, actions, env);
    var i := FirstAwaiting(synced, actions);
    if i < |synced| {
      var passed := synced[i := GateRecord(actions, synced[i], value, env)];
      UpdateKeepsSound(synced, i, GateRecord(actions, synced[i], value, env), env.ids);
      IdsNameOneRecord(passed, i, env.ids);
    }
  }

  lemma TurnKeepsEarned(b: Board, t: Workflow.Turn, env: Env)
    requires EarnedBoard(b) && RecordsSound(b.records, env.ids)
    ensures EarnedBoard(OneTurn(b, t, env).board)
  {
    SyncKeepsEarned(b.records, b.business.actions, env);
    var synced := Sync(b.records, b.business.actions, env);
    SyncKeepsEarned(synced, Workflow.RunOneStep(b.business, t).project.actions, env);
  }

  lemma StepKeepsEarned(b: Board, s: ExecStep, ids: nat -> string)
    requires EarnedBoard(b) && RecordsSound(b.records, ids) && Injective(ids) && DrawsFrom(s, ids) && FollowsTable(b, s)
    ensures EarnedBoard(TakeExecStep(b, s))
  {
    match s
    case SyncStep(env) => SyncKeepsEarned(b.records, b.business.actions, env);
    case TurnStep(turn, env) => TurnKeepsEarned(b, turn, env);
    case ResumeStep(id, effect, env) => MarkingKeepsEarned(b, id, effect, "", env);
    case CancelStep(id, effect, reason, env) => MarkingKeepsEarned(b, id, effect, reason, env);
    case ConsumeStep(id, engine, env) => ConsumeKeepsEarned(b, id, env, engine);
    case GateStep(value, env) => GateKeepsEarned(b, value, env);
    case BusinessStep(_) =>
  }

  ghost predicate AllFollowTable(b: Board, steps: seq<ExecStep>)
  {
    forall n :: 0 <= n < |steps| ==> FollowsTable(AfterExec(b, steps[..n]), steps[n])
  }

  lemma EarlierFollowTable(b: Board, steps: seq<ExecStep>)
    requires steps != [] && AllFollowTable(b, steps)
    ensures AllFollowTable(b, steps[..|steps| - 1])
  {
    var shorter := steps[..|steps| - 1];
    forall m | 0 <= m < |shorter| ensures FollowsTable(AfterExec(b, shorter[..m]), shorter[m]) {
      assert shorter[..m] == steps[..m];
    }
  }

  lemma LastStepKeepsEarned(b: Board, steps: seq<ExecStep>, ids: nat -> string)
    requires steps != [] && Injective(ids) && DrawsFrom(steps[|steps| - 1], ids)
    requires var before := AfterExec(b, steps[..|steps| - 1]);
      EarnedBoard(before) && RecordsSound(before.records, ids) && FollowsTable(before, steps[|steps| - 1])
    ensures EarnedBoard(AfterExec(b, steps))
  {
    StepKeepsEarned(AfterExec(b, steps[..|steps| - 1]), steps[|steps| - 1], ids);
  }

  lemma {:induction false} HistoriesAreEarned(b: Board, steps: seq<ExecStep>, ids: nat -> string)
    requires ExecInvariant(b, ids) && EarnedBoard(b) && Injective(ids) && AllFollowTable(b, steps)
    requires forall s :: s in steps ==> DrawsFrom(s, ids)
    ensures EarnedBoard(AfterExec(b, steps))
  {
    if steps != [] {
      var n := |steps| - 1;
      EarlierFollowTable(b, steps);
      HistoriesAreEarned(b, steps[..n], ids);
      HistoriesOnlyGrow(b, steps[..n], ids);
      LastStepKeepsEarned(b, steps, ids);
    }
  }

  /** The answered action behind a resume, and what it means for an edit. */
  ghost predicate WasAnswered(e: Acknowledgement)
    requires e.EngineResumed?
  {
    && e.record.resume.Some? && e.record.resume.value.snapshot.Some?
    && var a := e.record.resume.value.snapshot.value;
       && a.id == e.action.id && a.decision == e.action.decision && IsAnswered(a, Strip(a.decision), a.payloadAfter)
       && (a.actionType == EditType && Strip(a.decision) == "edit" ==> a.payloadAfter !in {NoPayload, EmptyPayload})
  }

  /**
    Over every history whose resumes follow the table, whatever the engine and other services do: each resume sent
    to the engine had been answered as its kind of action asks. So none ever answers an edit without content.
   */
  lemma EveryResumeWasAnswered(b: Board, steps: seq<ExecStep>, ids: nat -> string)
    requires b.records == [] && b.log == [] && Injective(ids) && AllFollowTable(b, steps)
    requires forall s :: s in steps ==> DrawsFrom(s, ids)
    ensures forall e :: e in AfterExec(b, steps).log && e.EngineResumed? ==> WasAnswered(e)
  {
    HistoriesAreEarned(b, steps, ids);
  }

  // ----- resumes that can never be consumed -----------------------------------------------------

  /** Resumed and unconsumed, with a value that is never sent: it does not say to continue, or it is a rejection. */
  predicate NeverSendable(r: InterruptRecord)
  {
    IsResumable(r) && r.resume.Some? &&
    (r.resume.value.allowContinue != Some(true) || r.resume.value.decision == Some("reject"))
  }

  lemma NeverSendableStays(b: Board, s: ExecStep, ids: nat -> string, i: nat)
    requires ExecInvariant(b, ids) && Injective(ids) && DrawsFrom(s, ids)
    requires i < |b.records| && NeverSendable(b.records[i])
    ensures i < |TakeExecStep(b, s).records| && NeverSendable(TakeExecStep(b, s).records[i])
  {
    StepKeepsInvariant(b, s, ids);
    var after := TakeExecStep(b, s);
    assert Lives(b.records[i], after.records[i]);
    if after.records[i].consumedAt.Some? {
      // the step would have logged an acknowledgement of this very record
      assert Count(after.log, ids(i)) == 1 && Count(b.log, ids(i)) == 0;
      LoggedOnlySendable(b, s, ids, i);
    }
  }

  /** A step that logs anything logs one record, which was sendable or still pending. */
  lemma OtherRecordsLogElsewhere(log: seq<Acknowledgement>, e: Acknowledgement, ids: nat -> string, k: nat, i: nat)
    requires Injective(ids) && k != i && IdOf(e) == ids(k)
    ensures Count(log + [e], ids(i)) == Count(log, ids(i))
  {
    CountGrows(log, e, ids(i));
  }

  lemma ConsumeLogsOnlySendable(b: Board, actionId: string, env: Env, engine: EngineReply, i: nat)
    requires RecordsSound(b.records, env.ids) && Injective(env.ids) && i < |b.records| && NeverSendable(b.records[i])
    ensures Count(Consume(b, actionId, env, engine).log, env.ids(i)) == Count(b.log, env.ids(i))
  {
    SyncKeepsSound(b.records, b.business.actions, 0, env);
    var synced := Sync(b.records, b.business.actions, env);
    var k, log := RecordIndex(synced, actionId), Consume(b, actionId, env, engine).log;
    assert Lives(b.records[i], synced[i]);
    if log != b.log {
      assert k < |synced| && k != i && log == b.log + [log[|b.log|]];
      OtherRecordsLogElsewhere(b.log, log[|b.log|], env.ids, k, i);
    }
  }

  lemma GateLogsOnlySendable(b: Board, value: ResumeValue, env: Env, i: nat)
    requires RecordsSound(b.records, env.ids) && Injective(env.ids) && i < |b.records| && NeverSendable(b.records[i])
    ensures Count(GateBoard(b, value, env).log, env.ids(i)) == Count(b.log, env.ids(i))
  {
    SyncKeepsSound(b.records, b.business.actions, 0, env);
    var synced := Sync(b.records, b.business.actions, env);
    var k := FirstAwaiting(synced, b.business.actions);
    assert Lives(b.records[i], synced[i]);
    if k < |synced| {
      assert AwaitsReview(synced[k], b.business.actions) && k != i;
      OtherRecordsLogElsewhere(b.log, GateResumed(synced[k]), env.ids, k, i);
    }
  }

  lemma LoggedOnlySendable(b: Board, s: ExecStep, ids: nat -> string, i: nat)
    requires ExecInvariant(b, ids) && Injective(ids) && DrawsFrom(s, ids)
    requires i < |b.records| && NeverSendable(b.records[i])
    ensures Count(TakeExecStep(b, s).log, ids(i)) == Count(b.log, ids(i))
  {
    match s
    case ConsumeStep(actionId, engine, env) => ConsumeLogsOnlySendable(b, actionId, env, engine, i);
    case GateStep(value, env) => GateLogsOnlySendable(b, value, env, i);
    case _ =>
  }

  /** A record resumed with such a value is stuck: no later history ever consumes it. */
  lemma {:induction false} UnsendableIsNeverConsumed(b: Board, steps: seq<ExecStep>, ids: nat -> string, i: nat)
    requires ExecInvariant(b, ids) && Injective(ids) && i < |b.records| && NeverSendable(b.records[i])
    requires forall s :: s in steps ==> DrawsFrom(s, ids)
    ensures ExecInvariant(AfterExec(b, steps), ids)
    ensures i < |AfterExec(b, steps).records| && NeverSendable(AfterExec(b, steps).records[i])
  {
    if steps != [] {
      var n := |steps| - 1;
      UnsendableIsNeverConsumed(b, steps[..n], ids, i);
      StepKeepsInvariant(AfterExec(b, steps[..n]), steps[n], ids);
      NeverSendableStays(AfterExec(b, steps[..n]), steps[n], ids, i);
    }
  }

  /**
    What is sent to the engine: the synchronised record of the action, resumed and not consumed, by a working engine,
    exactly if record, action, version and engine agree in every locator, the action was resolved by anything but a
    rejection, and the value says to continue for this very action and decision. It is then consumed, and nothing else.
   */
  lemma ConsumeSendsIff(b: Board, actionId: string, env: Env, engine: EngineReply)
    requires RecordsSound(b.records, env.ids) && Injective(env.ids)
    ensures var after := Consume(b, actionId, env, engine);
      var synced := Sync(b.records, b.business.actions, env);
      var i := RecordIndex(synced, actionId);
      && after.business == b.business
      && (after.log != b.log <==>
            && i < |synced| && engine == Succeeded && synced[i].status == ResumedInterrupt && synced[i].consumedAt.None?
            && AgreesForSending(synced[i], FirstAction(b.business.actions, actionId), b.business.versions, env))
      && (after.log == b.log ==> after.records == synced)
      && (after.log != b.log ==>
            && after.log == b.log + [EngineResumed(synced[i], FirstAction(b.business.actions, actionId).value,
                                                   VersionById(b.business.versions, synced[i].stageId))]
            && i < |after.records| && after.records[i].consumedAt == Some(env.now))
  {
    var actions := b.business.actions;
    var synced := Sync(b.records, actions, env);
    SyncKeepsSound(b.records, actions, 0, env);
    var i := RecordIndex(synced, actionId);
    if i < |synced| && IsResumable(synced[i]) {
      IdsNameOneRecord(synced, i, env.ids);
      ConsumingKeepsSound(synced, i, env.now, env.ids);
      var consumed := MarkConsumed(synced, synced[i].interruptId, env.now);
      SyncKeepsSound(consumed, actions, 0, env);
      assert Lives(consumed[i], Sync(consumed, actions, env)[i]);
    }
  }

  ghost predicate AgreesForSending(r: InterruptRecord, action: Option<HumanAction>, versions: map<Stage, int>, env: Env)
  {
    && action.Some? && r.resume.Some?
    && var a, value := action.value, r.resume.value;
       && a.status == Resolved && a.decision != "reject"
       && r.thread == env.thread && r.namespace == env.namespace
       && r.nodeName == (if a.nodeId == "" then ReviewGate(a.stageId) else NodeId(a.nodeId))
       && r.stageId == a.stageId && r.version == a.version == VersionById(versions, a.stageId)
       && value.allowContinue == Some(true) && value.actionId == Some(r.actionId) && value.decision == Some(a.decision)
  }

  /** A blocking action of the current version whose record, if any, is open and carries its locators. */
  predicate IsOpenAction(b: Board, a: HumanAction, env: Env)
  {
    && FirstAction(b.business.actions, a.id) == Some(a) && a.blocking && a.version == VersionById(b.business.versions, a.stageId)
    && (RecordOf(b.records, a.id).Some? ==>
          var r := RecordOf(b.records, a.id).value;
          && r.status == PendingInterrupt && r.consumedAt.None? && r.thread == env.thread && r.namespace == env.namespace
          && r.nodeName == NodeNameOf(a) && r.stageId == a.stageId && r.version == a.version)
  }

  lemma {:induction false} SyncKeepsClosedRecord(records: seq<InterruptRecord>, actions: seq<HumanAction>, k: nat, env: Env, id: string)
    requires k <= |actions| && RecordOf(records, id).Some? && RecordOf(records, id).value.status != PendingInterrupt
    ensures var after := RecordOf(SyncFrom(records, actions, k, env), id);
      after.Some? && after.value == RecordOf(records, id).value.(payload := after.value.payload)
    decreases |actions| - k
  {
    if k < |actions| {
      SyncOneLookup(records, actions, actions[k], env, id);
      SyncKeepsClosedRecord(SyncOne(records, actions, actions[k], env), actions, k + 1, env, id);
    }
  }

  /** The record of an open action once its resolution has been marked. */
  function MarkedRecord(b: Board, a: HumanAction, effect: Effect, env: Env): InterruptRecord
  {
    var r := Ensured(b.records, b.business.actions, a, env);
    if effect.allowContinue then ClosedIfPending(r, ResumedInterrupt, ResumeOf(a, Some(effect), ""), env.now)
    else ClosedIfPending(r, CancelledInterrupt, ResumeOf(a, Some(effect), CancelReason(NOT_ALLOWED, a)), env.now)
  }

  lemma MarkingLeaves(b: Board, a: HumanAction, effect: Effect, env: Env)
    requires IsOpenAction(b, a, env)
    ensures var marked := MarkResumed(b.records, b.business.actions, a.id, Some(effect), env);
      var r := MarkedRecord(b, a, effect, env);
      && RecordOf(marked, a.id) == Some(r) && r.consumedAt.None?
      && r.status == (if effect.allowContinue then ResumedInterrupt else CancelledInterrupt)
  {
    PutLookup(b.records, MarkedRecord(b, a, effect, env), a.id);
  }

  /**
    Marking such an action, then one engine call, resumes it exactly if the effect continues, the action was resolved
    by anything but a rejection, and the engine works.
   */
  lemma AllowedResolutionIsConsumed(b: Board, a: HumanAction, effect: Effect, env: Env, engine: EngineReply)
    requires IsOpenAction(b, a, env)
    ensures var c := b.(records := MarkResumed(b.records, b.business.actions, a.id, Some(effect), env));
      Consume(c, a.id, env, engine).log != c.log <==>
        effect.allowContinue && a.status == Resolved && a.decision != "reject" && engine == Succeeded
  {
    MarkingLeaves(b, a, effect, env);
    SyncKeepsClosedRecord(MarkResumed(b.records, b.business.actions, a.id, Some(effect), env), b.business.actions, 0, env, a.id);
  }

  /** The default argument of the marking function, no effect, creates such a record; no caller of the service omits it. */
  lemma MarkingWithoutPolicyIsStuck(records: seq<InterruptRecord>, actions: seq<HumanAction>, id: string, env: Env)
    requires var a := FirstAction(actions, id);
      a.Some? && a.value.blocking && a.value.status == Resolved && a.value.decision != "reject"
    requires RecordOf(records, id).Some? ==> RecordOf(records, id).value.status == PendingInterrupt
                                             && RecordOf(records, id).value.consumedAt.None?
    ensures RecordOf(MarkResumed(records, actions, id, None, env), id).Some?
    ensures NeverSendable(RecordOf(MarkResumed(records, actions, id, None, env), id).value)
  {
    var a := FirstAction(actions, id).value;
    var r := ClosedIfPending(Ensured(records, actions, a, env), ResumedInterrupt, ResumeOf(a, None, ""), env.now);
    PutLookup(records, r, id);
  }

  /**
    Dismissing an evidence question by rejecting it lets the workflow continue, so its record is resumed; but that
    record is stuck, since a rejection is never sent to the engine.
   */
  lemma RejectedEvidenceIsStuck(b: Board, id: string, env: Env)
    requires var a := FirstAction(b.business.actions, id);
      a.Some? && a.value.blocking && a.value.actionType == VerifyEvidenceType && a.value.decision == "reject"
    requires RecordOf(b.records, id).Some? ==> RecordOf(b.records, id).value.status == PendingInterrupt
                                               && RecordOf(b.records, id).value.consumedAt.None?
    ensures var a := FirstAction(b.business.actions, id).value;
      var effect := ResolutionEffect(a, a.decision, a.payloadAfter);
      var marked := MarkResumed(b.records, b.business.actions, id, Some(effect), env);
      RecordOf(marked, id).Some? && NeverSendable(RecordOf(marked, id).value)
  {
    var a := FirstAction(b.business.actions, id).value;
    var effect := ResolutionEffect(a, a.decision, a.payloadAfter);
    var r := ClosedIfPending(Ensured(b.records, b.business.actions, a, env), ResumedInterrupt, ResumeOf(a, Some(effect), ""), env.now);
    PutLookup(b.records, r, id);
  }

  /** So, however the session goes on, the engine is never sent that resume and the record stays unconsumed. */
  lemma RejectedEvidenceIsResumedButNotSent(b: Board, id: string, env: Env, later: seq<ExecStep>)
    requires ExecInvariant(b, env.ids) && Injective(env.ids) && forall s :: s in later ==> DrawsFrom(s, env.ids)
    requires var a := FirstAction(b.business.actions, id);
      a.Some? && a.value.blocking && a.value.actionType == VerifyEvidenceType && a.value.decision == "reject"
    requires RecordOf(b.records, id).Some? ==> RecordOf(b.records, id).value.status == PendingInterrupt
    ensures var a := FirstAction(b.business.actions, id).value;
      var effect := ResolutionEffect(a, a.decision, a.payloadAfter);
      var marked := MarkResumed(b.records, b.business.actions, id, Some(effect), env);
      var i, after := RecordIndex(marked, id), AfterExec(b.(records := marked), later);
      && i < |marked| && i < |after.records| && after.records[i].actionId == id
      && after.records[i].status == ResumedInterrupt && after.records[i].consumedAt.None?
      && Count(after.log, env.ids(i)) == 0
  {
    var a := FirstAction(b.business.actions, id).value;
    var effect := ResolutionEffect(a, a.decision, a.payloadAfter);
    var c := TakeExecStep(b, ResumeStep(id, Some(effect), env));
    StepKeepsInvariant(b, ResumeStep(id, Some(effect), env), env.ids);
    RejectedEvidenceIsStuck(b, id, env);
    var i := RecordIndex(c.records, id);
    UnsendableIsNeverConsumed(c, later, env.ids, i);
    HistoriesOnlyGrow(c, later, env.ids);
    assert Lives(c.records[i], AfterExec(c, later).records[i]);
  }

  lemma {:induction false} HistoriesOnlyGrow(b: Board, steps: seq<ExecStep>, ids: nat -> string)
    requires ExecInvariant(b, ids) && Injective(ids) && forall s :: s in steps ==> DrawsFrom(s, ids)
    ensures ExecInvariant(AfterExec(b, steps), ids) && Grows(b.records, AfterExec(b, steps).records)
  {
    if steps != [] {
      var n := |steps| - 1;
      HistoriesOnlyGrow(b, steps[..n], ids);
      LastStepKeepsInvariant(b, steps, ids);
      GrowsOn(b.records, AfterExec(b, steps[..n]).records, AfterExec(b, steps).records);
    }
  }
}
