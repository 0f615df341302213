/**
  Interrupt records: the execution-engine side of blocking human actions. A record is created for each blocking
  action, moves once from pending to resumed or cancelled, and a resumed one is consumed at most once.
 */
module Interrupts {
  import opened Prelude
  import opened Models
  import opened Lineage

  // ----- what a resolution means for the workflow --------------------------------------

  datatype Effect = Effect(allowResolve: bool, allowContinue: bool, requireRevision: bool, requireEscalation: bool)

  const CONTINUE := Effect(true, true, false, false)
  const SEND_BACK := Effect(true, false, true, false)
  const REFUSE_EDIT := Effect(false, false, true, false)
  const ESCALATE := Effect(false, false, false, true)
  const UNSUPPORTED := Effect(false, false, false, false)

  /** The decision table over the kind of action and the decision, blanks around it aside. */
  function ResolutionEffect(a: HumanAction, written: string, payload: Payload): Effect
  {
    var decision := Strip(written);
    match a.actionType
    case VerifyEvidenceType =>
      if decision in ["verify_evidence", "verified", "approve", "dismiss", "dismissed", "reject"] then CONTINUE
      else UNSUPPORTED
    case ApproveType =>
      if decision == "approve" then CONTINUE else if decision == "reject" then SEND_BACK else UNSUPPORTED
    case EditType =>
      if decision == "approve" && a.sourceType == "eval_run" then CONTINUE
      else if decision == "edit" then
        if payload.NoPayload? || payload.EmptyPayload? then REFUSE_EDIT
        else if a.sourceType in ["parser", "policy_gap", "evidence_gap", "eval_coverage"] && !payload.StructuredPayload?
        then REFUSE_EDIT
        else CONTINUE
      else if decision == "reject" then SEND_BACK
      else UNSUPPORTED
    case EscalateType => if decision == "approve" then CONTINUE else ESCALATE
    case RejectType => UNSUPPORTED
  }

  /** An edit must say something, and repair the structure where that is what was missing. */
  ghost predicate AnswersEdit(a: HumanAction, payload: Payload)
  {
    || payload == StructuredPayload
    || (payload == FreeTextPayload && a.sourceType !in {"parser", "policy_gap", "evidence_gap", "eval_coverage"})
  }

  /** What lets the workflow go on. */
  ghost predicate IsAnswered(a: HumanAction, decision: string, payload: Payload)
  {
    || (a.actionType == VerifyEvidenceType &&
        decision in {"verify_evidence", "verified", "approve", "dismiss", "dismissed", "reject"})
    || (a.actionType in {ApproveType, EscalateType} && decision == "approve")
    || (a.actionType == EditType && a.sourceType == "eval_run" && decision == "approve")
    || (a.actionType == EditType && decision == "edit" && AnswersEdit(a, payload))
  }

  /**
    The whole table, kind by kind: what continues, what only closes the action, what asks for a revision and what for
    an escalation. In particular continuing implies closing, only an explicit approval passes an escalated risk, an
    edit passes only with content, and a rejection lets the workflow go on exactly for evidence questions.
   */
  lemma ContinuationIsEarned(a: HumanAction, decision: string, payload: Payload)
    ensures var e, d := ResolutionEffect(a, decision, payload), Strip(decision);
      var sentBack := a.actionType in {ApproveType, EditType} && d == "reject";
      && (e.allowContinue <==> IsAnswered(a, d, payload))
      && (e.allowResolve <==> IsAnswered(a, d, payload) || sentBack)
      && (e.requireRevision <==> sentBack || (a.actionType == EditType && d == "edit" && !AnswersEdit(a, payload)))
      && (e.requireEscalation <==> a.actionType == EscalateType && d != "approve")
    ensures var e, d := ResolutionEffect(a, decision, payload), Strip(decision);
      && (e.allowContinue ==> e.allowResolve && !e.requireRevision && !e.requireEscalation)
      && (e.allowResolve && !e.allowContinue ==> d == "reject" && e.requireRevision)
      && (a.actionType == EscalateType ==> (e.allowContinue <==> d == "approve"))
      && (d == "reject" ==> (e.allowContinue <==> a.actionType == VerifyEvidenceType))
  {
  }

  // ----- records ------------------------------------------------------------------------

  datatype InterruptStatus = PendingInterrupt | ResumedInterrupt | CancelledInterrupt

  datatype NodeName = NodeId(id: string) | ReviewGate(stage: int)

  /** What is handed to the engine; values the engine handed back itself may lack any of it. */
  datatype ResumeValue = ResumeValue(
    actionId: Option<string>, decision: Option<string>, allowContinue: Option<bool>, snapshot: Option<HumanAction>,
    cancelReason: string)

  datatype InterruptPayload = InterruptPayload(
    interruptId: string, actionId: string, thread: string, nodeName: NodeName, stageId: int, version: int,
    action: Option<HumanAction>)

  datatype InterruptRecord = InterruptRecord(
    interruptId: string, actionId: string, stageId: int, version: int, thread: string, nodeName: NodeName,
    namespace: string, status: InterruptStatus, resume: Option<ResumeValue>, consumedAt: Option<int>,
    resolvedAt: Option<int>, payload: Option<InterruptPayload>)

  /** The execution locators in force, the time, and the identifier of a record stored at a position. */
  datatype Env = Env(thread: string, namespace: string, now: int, ids: nat -> string)

  function NodeNameOf(a: HumanAction): NodeName
  {
    if a.nodeId != "" then NodeId(a.nodeId) else ReviewGate(a.stageId)
  }

  function FirstAction(actions: seq<HumanAction>, id: string): (r: Option<HumanAction>)
    ensures r.Some? ==> r.value in actions && r.value.id == id
  {
    if actions == [] then None else if actions[0].id == id then Some(actions[0]) else FirstAction(actions[1..], id)
  }

  function RecordIndex(records: seq<InterruptRecord>, actionId: string): (i: nat)
    ensures i <= |records|
    ensures i < |records| ==> records[i].actionId == actionId
    ensures forall j :: 0 <= j < i ==> records[j].actionId != actionId
  {
    FirstIndex(records, (r: InterruptRecord) => r.actionId == actionId)
  }

  function RecordOf(records: seq<InterruptRecord>, actionId: string): Option<InterruptRecord>
  {
    var i := RecordIndex(records, actionId);
    if i < |records| then Some(records[i]) else None
  }

  function PayloadOf(actions: seq<HumanAction>, r: InterruptRecord, thread: string): InterruptPayload
  {
    InterruptPayload(r.interruptId, r.actionId, if r.thread != "" then r.thread else thread, r.nodeName, r.stageId,
                     r.version, FirstAction(actions, r.actionId))
  }

  function NewRecord(a: HumanAction, env: Env, at: nat): InterruptRecord
  {
    InterruptRecord(env.ids(at), a.id, a.stageId, a.version, env.thread, NodeNameOf(a), env.namespace, PendingInterrupt,
                    None, None, None, None)
  }

  /** The record of a blocking action, created when missing, with its payload refreshed. */
  function Ensured(records: seq<InterruptRecord>, actions: seq<HumanAction>, a: HumanAction, env: Env): InterruptRecord
  {
    var i := RecordIndex(records, a.id);
    var r := if i < |records| then records[i] else NewRecord(a, env, |records|);
    r.(payload := Some(PayloadOf(actions, r, env.thread)))
  }

  /** Puts a record where the record of its action belongs. */
  function Put(records: seq<InterruptRecord>, r: InterruptRecord): (q: seq<InterruptRecord>)
    ensures |records| <= |q| <= |records| + 1
  {
    var i := RecordIndex(records, r.actionId);
    if i < |records| then records[i := r] else records + [r]
  }

  function ResumeOf(a: HumanAction, effect: Option<Effect>, reason: string): ResumeValue
  {
    ResumeValue(Some(a.id), Some(a.decision), if effect.Some? then Some(effect.value.allowContinue) else None, Some(a), reason)
  }

  /** A record closes once: one that is no longer pending stays as it is. */
  function ClosedIfPending(r: InterruptRecord, status: InterruptStatus, value: ResumeValue, now: int): InterruptRecord
  {
    if r.status == PendingInterrupt then r.(status := status, resume := Some(value), resolvedAt := Some(now)) else r
  }

  predicate ClosesItsRecord(a: HumanAction)
  {
    a.status != Pending && (a.status != Resolved || a.decision == "reject")
  }

  /** Generic synchronisation may cancel; it never infers a resume from a decision. */
  function SyncedRecord(r: InterruptRecord, a: HumanAction, now: int): InterruptRecord
  {
    if ClosesItsRecord(a) then ClosedIfPending(r, CancelledInterrupt, ResumeOf(a, None, ""), now) else r
  }

  function SyncOne(records: seq<InterruptRecord>, actions: seq<HumanAction>, a: HumanAction, env: Env): seq<InterruptRecord>
  {
    if !a.blocking then records else Put(records, SyncedRecord(Ensured(records, actions, a, env), a, env.now))
  }

  function SyncFrom(records: seq<InterruptRecord>, actions: seq<HumanAction>, k: nat, env: Env): seq<InterruptRecord>
    requires k <= |actions|
    decreases |actions| - k
  {
    if k == |actions| then records else SyncFrom(SyncOne(records, actions, actions[k], env), actions, k + 1, env)
  }

  function Sync(records: seq<InterruptRecord>, actions: seq<HumanAction>, env: Env): seq<InterruptRecord>
  {
    SyncFrom(records, actions, 0, env)
  }

  predicate AllowsResume(a: HumanAction, effect: Option<Effect>)
  {
    if effect.Some? then effect.value.allowContinue else a.status == Resolved && a.decision != "reject"
  }

  const NOT_ALLOWED := "Action resolution does not allow workflow continuation."
  const NO_REASON := "Action cancelled or superseded."

  function CancelReason(reason: string, a: HumanAction): string
  {
    if reason != "" then reason else if a.note != "" then a.note else NO_REASON
  }

  function MarkCancelled(records: seq<InterruptRecord>, actions: seq<HumanAction>, id: string, reason: string,
                         effect: Option<Effect>, env: Env): seq<InterruptRecord>
  {
    var found := FirstAction(actions, id);
    if found.None? || !found.value.blocking then records
    else
      var a, r := found.value, Ensured(records, actions, found.value, env);
      Put(records, ClosedIfPending(r, CancelledInterrupt, ResumeOf(a, effect, CancelReason(reason, a)), env.now))
  }

  function MarkResumed(records: seq<InterruptRecord>, actions: seq<HumanAction>, id: string, effect: Option<Effect>, env: Env)
    : seq<InterruptRecord>
  {
    var found := FirstAction(actions, id);
    if found.None? || !found.value.blocking then records
    else
      var a, r := found.value, Ensured(records, actions, found.value, env);
      if r.status == PendingInterrupt && !AllowsResume(a, effect) then
        MarkCancelled(records, actions, id, NOT_ALLOWED, effect, env)
      else
        Put(records, ClosedIfPending(r, ResumedInterrupt, ResumeOf(a, effect, ""), env.now))
  }

  function IndexById(records: seq<InterruptRecord>, interruptId: string): (i: nat)
    ensures i <= |records|
    ensures i < |records| ==> records[i].interruptId == interruptId
    ensures forall j :: 0 <= j < i ==> records[j].interruptId != interruptId
  {
    FirstIndex(records, (r: InterruptRecord) => r.interruptId == interruptId)
  }

  function MarkConsumed(records: seq<InterruptRecord>, interruptId: string, now: int): seq<InterruptRecord>
  {
    var i := IndexById(records, interruptId);
    if i < |records| && records[i].consumedAt.None? then records[i := records[i].(consumedAt := Some(now))] else records
  }

  predicate IsPendingBlocking(a: HumanAction) { a.blocking && a.status == Pending }

  predicate AwaitsReview(r: InterruptRecord, actions: seq<HumanAction>)
  {
    r.status == PendingInterrupt && exists a :: a in actions && IsPendingBlocking(a) && a.id == r.actionId
  }

  function FirstAwaiting(records: seq<InterruptRecord>, actions: seq<HumanAction>): (i: nat)
    ensures i <= |records|
    ensures i < |records| ==> AwaitsReview(records[i], actions)
    ensures forall j :: 0 <= j < i ==> !AwaitsReview(records[j], actions)
  {
    FirstIndex(records, (r: InterruptRecord) => AwaitsReview(r, actions))
  }

  function Awaiting(records: seq<InterruptRecord>, actions: seq<HumanAction>): Option<InterruptRecord>
  {
    var i := FirstAwaiting(records, actions);
    if i < |records| then Some(records[i]) else None
  }

  function GateRecord(actions: seq<HumanAction>, r: InterruptRecord, value: ResumeValue, env: Env): InterruptRecord
  {
    r.(payload := Some(PayloadOf(actions, r, env.thread)), status := ResumedInterrupt, resume := Some(value),
       resolvedAt := Some(if r.resolvedAt.Some? then r.resolvedAt.value else env.now))
  }

  /** The review gate after the engine handed a value back: the record is resumed and consumed at once. */
  function GatePassed(records: seq<InterruptRecord>, actions: seq<HumanAction>, value: ResumeValue, env: Env): seq<InterruptRecord>
  {
    var synced := Sync(records, actions, env);
    var i := FirstAwaiting(synced, actions);
    if i == |synced| then synced
    else
      var r := synced[i];
      MarkConsumed(synced[i := GateRecord(actions, r, value, env)], r.interruptId, env.now)
  }

  // ----- the life of a record --------------------------------------------------------------

  predicate SameLocators(r: InterruptRecord, q: InterruptRecord)
  {
    && q.interruptId == r.interruptId && q.actionId == r.actionId && q.stageId == r.stageId && q.version == r.version
    && q.thread == r.thread && q.nodeName == r.nodeName && q.namespace == r.namespace
  }

  /** What may become of a record: it closes once, and is consumed once, after being resumed. */
  predicate Lives(r: InterruptRecord, q: InterruptRecord)
  {
    && SameLocators(r, q)
    && (r.status != PendingInterrupt ==> q.status == r.status && q.resume == r.resume && q.resolvedAt == r.resolvedAt)
    && (r.consumedAt.Some? ==> q.consumedAt == r.consumedAt)
    && (r.consumedAt.None? && q.consumedAt.Some? ==> q.status == ResumedInterrupt)
  }

  ghost predicate Grows(before: seq<InterruptRecord>, after: seq<InterruptRecord>)
  {
    |before| <= |after| && forall i :: 0 <= i < |before| ==> Lives(before[i], after[i])
  }

  lemma GrowsOn(a: seq<InterruptRecord>, b: seq<InterruptRecord>, c: seq<InterruptRecord>)
    requires Grows(a, b) && Grows(b, c)
    ensures Grows(a, c)
  {
    forall i | 0 <= i < |a| ensures Lives(a[i], c[i]) { assert Lives(a[i], b[i]) && Lives(b[i], c[i]); }
  }

  /** At most one record per action; identifiers follow position; only resumed records are consumed. */
  ghost predicate RecordsSound(records: seq<InterruptRecord>, ids: nat -> string)
  {
    && (forall i, j :: 0 <= i < j < |records| ==> records[i].actionId != records[j].actionId)
    && (forall i :: 0 <= i < |records| ==> records[i].interruptId == ids(i))
    && (forall i :: 0 <= i < |records| && records[i].consumedAt.Some? ==> records[i].status == ResumedInterrupt)
  }

  lemma AppendKeepsSound(records: seq<InterruptRecord>, r: InterruptRecord, ids: nat -> string)
    requires RecordsSound(records, ids) && r.interruptId == ids(|records|) && r.consumedAt.None?
    requires forall j :: 0 <= j < |records| ==> records[j].actionId != r.actionId
    ensures RecordsSound(records + [r], ids) && Grows(records, records + [r])
  {
  }

  lemma UpdateKeepsSound(records: seq<InterruptRecord>, i: nat, r: InterruptRecord, ids: nat -> string)
    requires i < |records| && RecordsSound(records, ids) && Lives(records[i], r)
    ensures RecordsSound(records[i := r], ids) && Grows(records, records[i := r])
  {
    assert records[i].consumedAt.Some? ==> records[i].status == ResumedInterrupt;
  }

  /** Storing a record that continues the stored one, or a new unconsumed one, keeps everything. */
  lemma PutKeepsSound(records: seq<InterruptRecord>, r: InterruptRecord, ids: nat -> string)
    requires RecordsSound(records, ids)
    requires var i := RecordIndex(records, r.actionId);
      if i < |records| then Lives(records[i], r) else r.interruptId == ids(|records|) && r.consumedAt.None?
    ensures RecordsSound(Put(records, r), ids) && Grows(records, Put(records, r))
  {
    var i := RecordIndex(records, r.actionId);
    if i < |records| { UpdateKeepsSound(records, i, r, ids); } else { AppendKeepsSound(records, r, ids); }
  }

  lemma SyncOneKeepsSound(records: seq<InterruptRecord>, actions: seq<HumanAction>, a: HumanAction, env: Env)
    requires RecordsSound(records, env.ids)
    ensures var after := SyncOne(records, actions, a, env); RecordsSound(after, env.ids) && Grows(records, after)
  {
    if a.blocking { PutKeepsSound(records, SyncedRecord(Ensured(records, actions, a, env), a, env.now), env.ids); }
  }

  lemma {:induction false} SyncKeepsSound(records: seq<InterruptRecord>, actions: seq<HumanAction>, k: nat, env: Env)
    requires k <= |actions| && RecordsSound(records, env.ids)
    ensures var after := SyncFrom(records, actions, k, env); RecordsSound(after, env.ids) && Grows(records, after)
    decreases |actions| - k
  {
    if k < |actions| {
      var next := SyncOne(records, actions, actions[k], env);
      SyncOneKeepsSound(records, actions, actions[k], env);
      SyncKeepsSound(next, actions, k + 1, env);
      GrowsOn(records, next, SyncFrom(records, actions, k, env));
    }
  }

  lemma MarkCancelledKeepsSound(records: seq<InterruptRecord>, actions: seq<HumanAction>, id: string, reason: string,
                                effect: Option<Effect>, env: Env)
    requires RecordsSound(records, env.ids)
    ensures var after := MarkCancelled(records, actions, id, reason, effect, env);
      RecordsSound(after, env.ids) && Grows(records, after)
  {
    var found := FirstAction(actions, id);
    if found.Some? && found.value.blocking {
      var a, r := found.value, Ensured(records, actions, found.value, env);
      PutKeepsSound(records, ClosedIfPending(r, CancelledInterrupt, ResumeOf(a, effect, CancelReason(reason, a)), env.now), env.ids);
    }
  }

  lemma MarkResumedKeepsSound(records: seq<InterruptRecord>, actions: seq<HumanAction>, id: string, effect: Option<Effect>, env: Env)
    requires RecordsSound(records, env.ids)
    ensures var after := MarkResumed(records, actions, id, effect, env);
      RecordsSound(after, env.ids) && Grows(records, after)
  {
    var found := FirstAction(actions, id);
    if found.Some? && found.value.blocking {
      var a, r := found.value, Ensured(records, actions, found.value, env);
      MarkCancelledKeepsSound(records, actions, id, NOT_ALLOWED, effect, env);
      PutKeepsSound(records, ClosedIfPending(r, ResumedInterrupt, ResumeOf(a, effect, ""), env.now), env.ids);
    }
  }

  lemma ConsumingKeepsSound(records: seq<InterruptRecord>, i: nat, now: int, ids: nat -> string)
    requires RecordsSound(records, ids) && i < |records| && records[i].status == ResumedInterrupt
    requires records[i].consumedAt.None? && IndexById(records, records[i].interruptId) == i
    ensures var after := MarkConsumed(records, records[i].interruptId, now);
      RecordsSound(after, ids) && Grows(records, after) && after == records[i := records[i].(consumedAt := Some(now))]
  {
    UpdateKeepsSound(records, i, records[i].(consumedAt := Some(now)), ids);
  }

  /** A record is consumed at most once: marking it again, at whatever time, leaves the first time standing. */
  lemma ConsumedOnlyOnce(records: seq<InterruptRecord>, interruptId: string, now: int, later: int)
    ensures var once := MarkConsumed(records, interruptId, now); MarkConsumed(once, interruptId, later) == once
  {
    var once, i := MarkConsumed(records, interruptId, now), IndexById(records, interruptId);
    if i < |records| {
      assert once[i].interruptId == interruptId;
      forall j | 0 <= j < i ensures once[j].interruptId != interruptId { assert once[j] == records[j]; }
    }
  }

  lemma IdsNameOneRecord(records: seq<InterruptRecord>, i: nat, ids: nat -> string)
    requires RecordsSound(records, ids) && Injective(ids) && i < |records|
    ensures IndexById(records, records[i].interruptId) == i
  {
    var j := IndexById(records, records[i].interruptId);
    assert records[j].interruptId == ids(j) && records[i].interruptId == ids(i);
  }

  ghost predicate Injective(ids: nat -> string)
  {
    forall m, n :: ids(m) == ids(n) ==> m == n
  }

  // ----- generic synchronisation never resumes, and is idempotent ----------------------------

  ghost predicate ConsumedAlike(before: seq<InterruptRecord>, after: seq<InterruptRecord>)
  {
    && |before| <= |after|
    && forall i :: 0 <= i < |after| ==> after[i].consumedAt == if i < |before| then before[i].consumedAt else None
  }

  ghost predicate ResumesNothing(before: seq<InterruptRecord>, after: seq<InterruptRecord>)
  {
    && ConsumedAlike(before, after)
    && forall i :: 0 <= i < |after| && after[i].status == ResumedInterrupt ==> i < |before| && before[i].status == ResumedInterrupt
  }

  lemma ResumesNothingOn(a: seq<InterruptRecord>, b: seq<InterruptRecord>, c: seq<InterruptRecord>)
    requires ResumesNothing(a, b) && ResumesNothing(b, c)
    ensures ResumesNothing(a, c)
  {
  }

  lemma SyncOneNeverResumes(records: seq<InterruptRecord>, actions: seq<HumanAction>, a: HumanAction, env: Env)
    ensures ResumesNothing(records, SyncOne(records, actions, a, env))
  {
  }

  lemma {:induction false} SyncNeverResumes(records: seq<InterruptRecord>, actions: seq<HumanAction>, k: nat, env: Env)
    requires k <= |actions|
    ensures ResumesNothing(records, SyncFrom(records, actions, k, env))
    decreases |actions| - k
  {
    if k < |actions| {
      var next := SyncOne(records, actions, actions[k], env);
      SyncOneNeverResumes(records, actions, actions[k], env);
      SyncNeverResumes(next, actions, k + 1, env);
      ResumesNothingOn(records, next, SyncFrom(records, actions, k, env));
    }
  }

  lemma PutLookup(records: seq<InterruptRecord>, r: InterruptRecord, id: string)
    ensures RecordOf(Put(records, r), id) == if id == r.actionId then Some(r) else RecordOf(records, id)
  {
    var after := Put(records, r);
    assert after[RecordIndex(records, r.actionId)] == r;
    var i := RecordIndex(records, id);
    if i < |records| && id != r.actionId { assert after[i] == records[i]; }
  }

  // ----- where each operation leads a record ------------------------------------------------------

  /** Identity and locators are those the record had, or those the action and the engine give a new one. */
  ghost predicate IsRecordFor(was: Option<InterruptRecord>, a: HumanAction, env: Env, at: nat, r: InterruptRecord)
  {
    match was
    case Some(prior) => SameLocators(prior, r) && r.consumedAt == prior.consumedAt
    case None =>
      && r.interruptId == env.ids(at) && r.actionId == a.id && r.stageId == a.stageId && r.version == a.version
      && r.thread == env.thread && r.namespace == env.namespace && r.consumedAt.None?
      && r.nodeName == (if a.nodeId == "" then ReviewGate(a.stageId) else NodeId(a.nodeId))
  }

  /** The payload shows the record, on its own thread or else the engine's, and the action it stands for. */
  ghost predicate ShowsAction(r: InterruptRecord, actions: seq<HumanAction>, thread: string)
  {
    && r.payload.Some?
    && var p := r.payload.value;
       && p.interruptId == r.interruptId && p.actionId == r.actionId && p.nodeName == r.nodeName
       && p.stageId == r.stageId && p.version == r.version && p.thread == (if r.thread == "" then thread else r.thread)
       && (p.action.None? ==> forall x :: x in actions ==> x.id != r.actionId)
       && (p.action.Some? ==> p.action.value in actions && p.action.value.id == r.actionId)
  }

  lemma {:induction false} FirstActionIs(actions: seq<HumanAction>, id: string)
    ensures FirstAction(actions, id).None? <==> forall x :: x in actions ==> x.id != id
  {
    if actions != [] { FirstActionIs(actions[1..], id); }
  }

  ghost predicate OnlyItsRecord(before: seq<InterruptRecord>, after: seq<InterruptRecord>, id: string)
  {
    && |before| <= |after| <= |before| + 1
    && (forall i :: 0 <= i < |before| && before[i].actionId != id ==> after[i] == before[i])
    && (forall i :: |before| <= i < |after| ==> after[i].actionId == id)
  }

  lemma PutChangesOnlyIt(records: seq<InterruptRecord>, r: InterruptRecord)
    ensures OnlyItsRecord(records, Put(records, r), r.actionId)
  {
  }

  lemma EnsuredIs(records: seq<InterruptRecord>, actions: seq<HumanAction>, a: HumanAction, env: Env)
    ensures var r, was := Ensured(records, actions, a, env), RecordOf(records, a.id);
      && IsRecordFor(was, a, env, |records|, r) && ShowsAction(r, actions, env.thread)
      && r.status == (if was.Some? then was.value.status else PendingInterrupt)
      && r.resume == (if was.Some? then was.value.resume else None)
      && r.resolvedAt == (if was.Some? then was.value.resolvedAt else None)
  {
    FirstActionIs(actions, Ensured(records, actions, a, env).actionId);
  }

  /** The record as it was before, or a new pending one. */
  predicate WasPending(was: Option<InterruptRecord>) { was.None? || was.value.status == PendingInterrupt }

  ghost predicate ClosedAs(r: InterruptRecord, status: InterruptStatus, a: HumanAction, answer: Option<bool>, reason: string, now: int)
  {
    && r.status == status && r.resolvedAt == Some(now)
    && r.resume == Some(ResumeValue(Some(a.id), Some(a.decision), answer, Some(a), reason))
  }

  ghost predicate KeptAsItWas(was: Option<InterruptRecord>, r: InterruptRecord)
  {
    if was.Some? then r.status == was.value.status && r.resume == was.value.resume && r.resolvedAt == was.value.resolvedAt
    else r.status == PendingInterrupt && r.resume.None? && r.resolvedAt.None?
  }

  /**
    Marking resumed closes the pending record of the action, as resumed with what the reviewer answered if the effect,
    or without one a plain resolution, lets the workflow go on, and else as cancelled; a closed one stays as it was.
   */
  lemma MarkResumedLeadsTo(records: seq<InterruptRecord>, actions: seq<HumanAction>, effect: Option<Effect>, env: Env, a: HumanAction)
    requires FirstAction(actions, a.id) == Some(a) && a.blocking
    ensures var after, was := MarkResumed(records, actions, a.id, effect, env), RecordOf(records, a.id);
      && OnlyItsRecord(records, after, a.id) && RecordOf(after, a.id).Some?
      && var r := RecordOf(after, a.id).value;
         var answer := if effect.Some? then Some(effect.value.allowContinue) else None;
         && IsRecordFor(was, a, env, |records|, r) && ShowsAction(r, actions, env.thread)
         && if !WasPending(was) then KeptAsItWas(was, r)
            else if answer == Some(true) || (answer == None && a.status == Resolved && a.decision != "reject")
            then ClosedAs(r, ResumedInterrupt, a, answer, "", env.now)
            else ClosedAs(r, CancelledInterrupt, a, answer, "Action resolution does not allow workflow continuation.", env.now)
  {
    var r := Ensured(records, actions, a, env);
    EnsuredIs(records, actions, a, env);
    var closed := if r.status == PendingInterrupt && !AllowsResume(a, effect)
                  then ClosedIfPending(r, CancelledInterrupt, ResumeOf(a, effect, NOT_ALLOWED), env.now)
                  else ClosedIfPending(r, ResumedInterrupt, ResumeOf(a, effect, ""), env.now);
    PutLookup(records, closed, a.id);
    PutChangesOnlyIt(records, closed);
  }

  /** Marking cancelled closes the pending record with the reason given, else the reviewer's note, else a general one. */
  lemma MarkCancelledLeadsTo(records: seq<InterruptRecord>, actions: seq<HumanAction>, reason: string, effect: Option<Effect>,
                             env: Env, a: HumanAction)
    requires FirstAction(actions, a.id) == Some(a) && a.blocking
    ensures var after, was := MarkCancelled(records, actions, a.id, reason, effect, env), RecordOf(records, a.id);
      && OnlyItsRecord(records, after, a.id) && RecordOf(after, a.id).Some?
      && var r := RecordOf(after, a.id).value;
         var why := if reason == "" && a.note == "" then "Action cancelled or superseded." else if reason == "" then a.note else reason;
         && IsRecordFor(was, a, env, |records|, r) && ShowsAction(r, actions, env.thread)
         && if WasPending(was)
            then ClosedAs(r, CancelledInterrupt, a, if effect.Some? then Some(effect.value.allowContinue) else None, why, env.now)
            else KeptAsItWas(was, r)
  {
    var r := Ensured(records, actions, a, env);
    EnsuredIs(records, actions, a, env);
    var closed := ClosedIfPending(r, CancelledInterrupt, ResumeOf(a, effect, CancelReason(reason, a)), env.now);
    PutLookup(records, closed, a.id);
    PutChangesOnlyIt(records, closed);
  }

  /** Synchronising one action opens its record, and closes a pending one exactly if the action is over without an approval. */
  lemma SyncOneLeadsTo(records: seq<InterruptRecord>, actions: seq<HumanAction>, a: HumanAction, env: Env)
    requires a.blocking
    ensures var after, was := SyncOne(records, actions, a, env), RecordOf(records, a.id);
      && OnlyItsRecord(records, after, a.id) && RecordOf(after, a.id).Some?
      && var r := RecordOf(after, a.id).value;
         && IsRecordFor(was, a, env, |records|, r) && ShowsAction(r, actions, env.thread)
         && if WasPending(was) && (a.status in {Cancelled, Superseded, Stale} || (a.status == Resolved && a.decision == "reject"))
            then ClosedAs(r, CancelledInterrupt, a, None, "", env.now)
            else KeptAsItWas(was, r)
  {
    EnsuredIs(records, actions, a, env);
    var closed := SyncedRecord(Ensured(records, actions, a, env), a, env.now);
    PutLookup(records, closed, a.id);
    PutChangesOnlyIt(records, closed);
  }

  /** The gate resumes the first awaited record with the engine's value and consumes it at once, and touches no other. */
  lemma GateLeadsTo(records: seq<InterruptRecord>, actions: seq<HumanAction>, value: ResumeValue, env: Env)
    requires RecordsSound(records, env.ids) && Injective(env.ids)
    ensures var synced, after := Sync(records, actions, env), GatePassed(records, actions, value, env);
      var i := FirstAwaiting(synced, actions);
      && |after| == |synced| && (forall j :: 0 <= j < |synced| && j != i ==> after[j] == synced[j])
      && (i < |synced| ==>
            && after[i].status == ResumedInterrupt && after[i].resume == Some(value) && SameLocators(synced[i], after[i])
            && after[i].consumedAt == (if synced[i].consumedAt.Some? then synced[i].consumedAt else Some(env.now))
            && after[i].resolvedAt == (if synced[i].resolvedAt.Some? then synced[i].resolvedAt else Some(env.now))
            && ShowsAction(after[i], actions, env.thread))
  {
    SyncKeepsSound(records, actions, 0, env);
    var synced := Sync(records, actions, env);
    var i := FirstAwaiting(synced, actions);
    if i < |synced| {
      FirstActionIs(actions, synced[i].actionId);
      var passed := synced[i := GateRecord(actions, synced[i], value, env)];
      IdsNameOneRecord(passed, i, env.ids);
    }
  }

  /** Nothing is left to do for an action: its record exists, shows it, and is not waiting to be cancelled. */
  predicate Settled(records: seq<InterruptRecord>, actions: seq<HumanAction>, a: HumanAction, thread: string)
  {
    a.blocking ==>
      var r := RecordOf(records, a.id);
      && r.Some? && r.value.payload == Some(PayloadOf(actions, r.value, thread))
      && (r.value.status == PendingInterrupt ==> !ClosesItsRecord(a))
  }

  lemma SyncOneLookup(records: seq<InterruptRecord>, actions: seq<HumanAction>, b: HumanAction, env: Env, id: string)
    ensures RecordOf(SyncOne(records, actions, b, env), id) ==
      if b.blocking && b.id == id then Some(SyncedRecord(Ensured(records, actions, b, env), b, env.now)) else RecordOf(records, id)
  {
    if b.blocking { PutLookup(records, SyncedRecord(Ensured(records, actions, b, env), b, env.now), id); }
  }

  lemma SyncOneKeepsSettled(records: seq<InterruptRecord>, actions: seq<HumanAction>, b: HumanAction, a: HumanAction, env: Env)
    requires Settled(records, actions, a, env.thread) || a == b
    ensures Settled(SyncOne(records, actions, b, env), actions, a, env.thread)
  {
    SyncOneLookup(records, actions, b, env, a.id);
  }

  lemma {:induction false} SyncSettlesAll(records: seq<InterruptRecord>, actions: seq<HumanAction>, k: nat, env: Env)
    requires k <= |actions|
    requires forall j :: 0 <= j < k ==> Settled(records, actions, actions[j], env.thread)
    ensures forall j :: 0 <= j < |actions| ==> Settled(SyncFrom(records, actions, k, env), actions, actions[j], env.thread)
    decreases |actions| - k
  {
    if k < |actions| {
      forall j | 0 <= j <= k
        ensures Settled(SyncOne(records, actions, actions[k], env), actions, actions[j], env.thread)
      {
        SyncOneKeepsSettled(records, actions, actions[k], actions[j], env);
      }
      SyncSettlesAll(SyncOne(records, actions, actions[k], env), actions, k + 1, env);
    }
  }

  lemma {:induction false} SettledIsFixed(records: seq<InterruptRecord>, actions: seq<HumanAction>, k: nat, env: Env)
    requires k <= |actions|
    requires forall j :: 0 <= j < |actions| ==> Settled(records, actions, actions[j], env.thread)
    ensures SyncFrom(records, actions, k, env) == records
    decreases |actions| - k
  {
    if k < |actions| {
      assert Settled(records, actions, actions[k], env.thread);
      assert SyncOne(records, actions, actions[k], env) == records;
      SettledIsFixed(records, actions, k + 1, env);
    }
  }

  /** Synchronising again, at any later time, changes nothing, even when action identifiers repeat. */
  lemma SyncIsIdempotent(records: seq<InterruptRecord>, actions: seq<HumanAction>, env: Env, later: Env)
    requires later.thread == env.thread
    ensures Sync(Sync(records, actions, env), actions, later) == Sync(records, actions, env)
  {
    SyncSettlesAll(records, actions, 0, env);
    SettledIsFixed(Sync(records, actions, env), actions, 0, later);
  }

  // ----- when a turn may run a stage node ------------------------------------------------------

  ghost predicate DistinctActions(actions: seq<HumanAction>)
  {
    forall i, j :: 0 <= i < j < |actions| ==> actions[i].id != actions[j].id
  }

  predicate IsClosedFor(records: seq<InterruptRecord>, a: HumanAction)
  {
    var r := RecordOf(records, a.id);
    r.Some? && r.value.status != PendingInterrupt
  }

  /** From position `k` on, some blocking action with the same identifier makes synchronisation close the record. */
  predicate ClosesFrom(actions: seq<HumanAction>, k: nat, a: HumanAction)
  {
    exists j :: k <= j < |actions| && actions[j].blocking && actions[j].id == a.id && ClosesItsRecord(actions[j])
  }

  lemma {:induction false} SyncClosesExactly(records: seq<InterruptRecord>, actions: seq<HumanAction>, k: nat, a: HumanAction, env: Env)
    requires k <= |actions|
    ensures IsClosedFor(SyncFrom(records, actions, k, env), a) <==> IsClosedFor(records, a) || ClosesFrom(actions, k, a)
    decreases |actions| - k
  {
    if k < |actions| {
      SyncOneLookup(records, actions, actions[k], env, a.id);
      SyncClosesExactly(SyncOne(records, actions, actions[k], env), actions, k + 1, a, env);
    }
  }

  /** Nothing is awaited after synchronisation exactly when it leaves every pending blocking action a closed record. */
  lemma AwaitedIffAnOpenRecord(records: seq<InterruptRecord>, actions: seq<HumanAction>, env: Env)
    requires RecordsSound(records, env.ids)
    ensures var after := Sync(records, actions, env);
      Awaiting(after, actions).None? <==> forall a :: a in actions && IsPendingBlocking(a) ==> IsClosedFor(after, a)
  {
    SyncKeepsSound(records, actions, 0, env);
    SyncSettlesAll(records, actions, 0, env);
    AwaitedIffOpenNow(Sync(records, actions, env), actions, env.ids);
  }

  /**
    For every list of actions, nothing is awaited after synchronisation exactly when each pending blocking action
    already has a closed record, or shares its identifier with a blocking action that closes it.
   */
  lemma AwaitedIffAnOpenReview(records: seq<InterruptRecord>, actions: seq<HumanAction>, env: Env)
    requires RecordsSound(records, env.ids)
    ensures Awaiting(Sync(records, actions, env), actions).None? <==>
      forall a :: a in actions && IsPendingBlocking(a) ==> IsClosedFor(records, a) || ClosesFrom(actions, 0, a)
  {
    AwaitedIffAnOpenRecord(records, actions, env);
    forall a: HumanAction
      ensures IsClosedFor(Sync(records, actions, env), a) <==> IsClosedFor(records, a) || ClosesFrom(actions, 0, a)
    {
      SyncClosesExactly(records, actions, 0, a, env);
    }
  }

  /** With distinct identifiers no other action can close the record of a pending one. */
  lemma DistinctActionsCloseTheirOwn(actions: seq<HumanAction>, a: HumanAction)
    requires DistinctActions(actions) && a in actions && IsPendingBlocking(a)
    ensures !ClosesFrom(actions, 0, a)
  {
    var i :| 0 <= i < |actions| && actions[i] == a;
    forall j | 0 <= j < |actions| && actions[j].id == a.id ensures j == i {}
  }

  lemma AwaitedIffOpenNow(records: seq<InterruptRecord>, actions: seq<HumanAction>, ids: nat -> string)
    requires RecordsSound(records, ids)
    requires forall a :: a in actions && IsPendingBlocking(a) ==> RecordOf(records, a.id).Some?
    ensures Awaiting(records, actions).None? <==> forall a :: a in actions && IsPendingBlocking(a) ==> IsClosedFor(records, a)
  {
    var i := FirstAwaiting(records, actions);
    if i < |records| {
      var a :| a in actions && IsPendingBlocking(a) && a.id == records[i].actionId;
      assert RecordIndex(records, a.id) == i;
      assert !IsClosedFor(records, a);
    } else {
      forall a | a in actions && IsPendingBlocking(a) ensures IsClosedFor(records, a) {
        assert !AwaitsReview(records[RecordIndex(records, a.id)], actions);
      }
    }
  }
}
