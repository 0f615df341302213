/** The execution layer as it runs: methods that update the interrupt records of a session in place. */
module Execution {
  import opened Prelude
  import opened Models
  import opened Lineage
  import Workflow
  import opened Interrupts
  import opened Resumes

  /** Records as they stand after each listed action was mapped to a resume or a cancellation. */
  function Prepared(records: seq<InterruptRecord>, actions: seq<HumanAction>, ids: seq<string>, k: nat, env: Env): seq<InterruptRecord>
    requires k <= |ids|
    decreases |ids| - k
  {
    if k == |ids| then records else Prepared(PrepareOne(records, actions, ids[k], env), actions, ids, k + 1, env)
  }

  function PrepareOne(records: seq<InterruptRecord>, actions: seq<HumanAction>, id: string, env: Env): seq<InterruptRecord>
  {
    var a := FirstAction(actions, id);
    if a.None? || a.value.decision == "" then records
    else
      var effect := ResolutionEffect(a.value, a.value.decision, a.value.payloadAfter);
      if effect.allowContinue then MarkResumed(records, actions, id, Some(effect), env)
      else MarkCancelled(records, actions, id, EFFECT_MESSAGE, Some(effect), env)
  }

  /** The sentence the decision table gives for not continuing. */
  const EFFECT_MESSAGE := "The resolution does not let the workflow continue."

  lemma PrepareOneKeepsSound(records: seq<InterruptRecord>, actions: seq<HumanAction>, id: string, env: Env)
    requires RecordsSound(records, env.ids)
    ensures var after := PrepareOne(records, actions, id, env); RecordsSound(after, env.ids) && Grows(records, after)
  {
    var a := FirstAction(actions, id);
    if a.Some? {
      var effect := ResolutionEffect(a.value, a.value.decision, a.value.payloadAfter);
      MarkResumedKeepsSound(records, actions, id, Some(effect), env);
      MarkCancelledKeepsSound(records, actions, id, EFFECT_MESSAGE, Some(effect), env);
    }
  }

  /** Preparing resumes opens, resumes and cancels records only as their life allows. */
  lemma {:induction false} PreparedKeepsSound(records: seq<InterruptRecord>, actions: seq<HumanAction>, ids: seq<string>, k: nat, env: Env)
    requires k <= |ids| && RecordsSound(records, env.ids)
    ensures var after := Prepared(records, actions, ids, k, env); RecordsSound(after, env.ids) && Grows(records, after)
    decreases |ids| - k
  {
    if k < |ids| {
      var next := PrepareOne(records, actions, ids[k], env);
      PrepareOneKeepsSound(records, actions, ids[k], env);
      PreparedKeepsSound(next, actions, ids, k + 1, env);
      GrowsOn(records, next, Prepared(records, actions, ids, k, env));
    }
  }

  /** How the record of a decided action ends: a closed one as it was, else resumed exactly if the decision continues. */
  function SettledStatus(was: Option<InterruptRecord>, a: HumanAction): InterruptStatus
  {
    if was.Some? && was.value.status != PendingInterrupt then was.value.status
    else if ResolutionEffect(a, a.decision, a.payloadAfter).allowContinue then ResumedInterrupt
    else CancelledInterrupt
  }

  ghost predicate IsDecided(actions: seq<HumanAction>, a: HumanAction)
  {
    FirstAction(actions, a.id) == Some(a) && a.blocking && a.decision != ""
  }

  lemma OthersKeepTheirRecord(before: seq<InterruptRecord>, after: seq<InterruptRecord>, changed: string, id: string)
    requires Grows(before, after) && OnlyItsRecord(before, after, changed) && id != changed
    ensures RecordOf(after, id) == RecordOf(before, id)
  {
    var i := RecordIndex(before, id);
    forall j | 0 <= j < |before| ensures after[j].actionId == before[j].actionId { assert Lives(before[j], after[j]); }
    assert RecordIndex(after, id) == if i < |before| then i else |after|;
  }

  lemma PrepareOneTouchesOne(records: seq<InterruptRecord>, actions: seq<HumanAction>, id: string, env: Env)
    ensures OnlyItsRecord(records, PrepareOne(records, actions, id, env), id)
  {
    var a := FirstAction(actions, id);
    if a.Some? && a.value.blocking {
      var effect := ResolutionEffect(a.value, a.value.decision, a.value.payloadAfter);
      MarkResumedLeadsTo(records, actions, Some(effect), env, a.value);
      MarkCancelledLeadsTo(records, actions, EFFECT_MESSAGE, Some(effect), env, a.value);
    }
  }

  lemma PrepareOneSettles(records: seq<InterruptRecord>, actions: seq<HumanAction>, id: string, env: Env, a: HumanAction)
    requires RecordsSound(records, env.ids) && IsDecided(actions, a)
    ensures var now, was := RecordOf(PrepareOne(records, actions, id, env), a.id), RecordOf(records, a.id);
      if id == a.id then now.Some? && now.value.status == SettledStatus(was, a) else now == was
  {
    if id == a.id {
      var effect := ResolutionEffect(a, a.decision, a.payloadAfter);
      MarkResumedLeadsTo(records, actions, Some(effect), env, a);
      MarkCancelledLeadsTo(records, actions, EFFECT_MESSAGE, Some(effect), env, a);
    } else {
      PrepareOneKeepsSound(records, actions, id, env);
      PrepareOneTouchesOne(records, actions, id, env);
      OthersKeepTheirRecord(records, PrepareOne(records, actions, id, env), id, a.id);
    }
  }

  lemma SettledIsClosed(was: Option<InterruptRecord>, a: HumanAction)
    ensures SettledStatus(was, a) != PendingInterrupt
  {
  }

  /** A closed record stays as it was closed. */
  lemma ClosedStaysClosed(before: seq<InterruptRecord>, after: seq<InterruptRecord>, id: string)
    requires Grows(before, after) && RecordOf(before, id).Some? && RecordOf(before, id).value.status != PendingInterrupt
    ensures RecordOf(after, id).Some? && RecordOf(after, id).value.status == RecordOf(before, id).value.status
  {
    var i := RecordIndex(before, id);
    assert Lives(before[i], after[i]);
    forall j | 0 <= j < i ensures after[j].actionId != id { assert Lives(before[j], after[j]); }
    assert RecordIndex(after, id) == i;
  }

  /**
    What preparing a list of resolutions leaves of each decided blocking action: if it is listed, its record is closed, as it
    was or else resumed exactly if the decision table continues; if not, its record is untouched.
   */
  lemma {:induction false} PreparedSettles(records: seq<InterruptRecord>, actions: seq<HumanAction>, ids: seq<string>, k: nat,
                                           env: Env, a: HumanAction)
    requires k <= |ids| && RecordsSound(records, env.ids) && IsDecided(actions, a)
    ensures var now, was := RecordOf(Prepared(records, actions, ids, k, env), a.id), RecordOf(records, a.id);
      if a.id in ids[k..] then now.Some? && now.value.status == SettledStatus(was, a) else now == was
    decreases |ids| - k
  {
    if k < |ids| {
      var next := PrepareOne(records, actions, ids[k], env);
      PrepareOneKeepsSound(records, actions, ids[k], env);
      PrepareOneSettles(records, actions, ids[k], env, a);
      assert ids[k..] == [ids[k]] + ids[k + 1..];
      if ids[k] == a.id {
        SettledIsClosed(RecordOf(records, a.id), a);
        PreparedKeepsSound(next, actions, ids, k + 1, env);
        ClosedStaysClosed(next, Prepared(next, actions, ids, k + 1, env), a.id);
      } else {
        PreparedSettles(next, actions, ids, k + 1, env, a);
      }
    }
  }

  class ExecutionContext {
    var business: Project
    var records: seq<InterruptRecord>
    ghost var log: seq<Acknowledgement>

    constructor (business: Project)
      ensures View() == Board(business, [], [])
    {
      this.business, records, log := business, [], [];
    }

    ghost function View(): Board
      reads this
    {
      Board(business, records, log)
    }

    /** Creates the record of a blocking action if it is missing, and refreshes its payload. */
    method EnsureRecordForAction(a: HumanAction, env: Env) returns (i: nat)
      requires a.blocking
      modifies `records
      ensures records == Put(old(records), Ensured(old(records), business.actions, a, env))
      ensures i == RecordIndex(old(records), a.id) && i < |records| && records[i] == Ensured(old(records), business.actions, a, env)
    {
      i := RecordIndex(records, a.id);
      if i == |records| { records := records + [NewRecord(a, env, |records|)]; }
      var r := records[i];
      records := records[i := r.(payload := Some(PayloadOf(business.actions, r, env.thread)))];
    }

    method SyncInterruptRecords(env: Env) returns (created: seq<InterruptRecord>)
      modifies `records
      ensures records == Sync(old(records), business.actions, env)
      ensures |old(records)| <= |records| && created == records[|old(records)|..]
    {
      var before, actions := |records|, business.actions;
      for k := 0 to |actions|
        invariant SyncFrom(records, actions, k, env) == Sync(old(records), actions, env)
        invariant before <= |records|
      {
        var a := actions[k];
        if a.blocking {
          SyncOneIsPut(records, actions, a, env);
          var i := EnsureRecordForAction(a, env);
          var r := records[i];
          if a.status == Pending {
            if r.status == PendingInterrupt {
              records := records[i := r.(payload := Some(PayloadOf(actions, r, env.thread)))];
            }
          } else if r.status == PendingInterrupt && (a.status != Resolved || a.decision == "reject") {
            r := r.(resume := Some(ResumeOf(a, None, "")));
            r := r.(resolvedAt := Some(env.now));
            r := r.(status := CancelledInterrupt);
            records := records[i := r];
          }
        }
      }
      created := records[before..];
    }

    method GetPendingBlockingInterrupt(env: Env) returns (r: Option<InterruptRecord>)
      modifies `records
      ensures records == Sync(old(records), business.actions, env)
      ensures r == Awaiting(records, business.actions)
      ensures r.Some? <==> exists q :: q in records && AwaitsReview(q, business.actions)
    {
      var _ := SyncInterruptRecords(env);
      r := Awaiting(records, business.actions);
      var i := FirstAwaiting(records, business.actions);
      if i < |records| { assert records[i] in records; }
    }

    method MarkInterruptCancelledFromAction(id: string, reason: string, effect: Option<Effect>, env: Env)
      modifies `records
      ensures records == MarkCancelled(old(records), business.actions, id, reason, effect, env)
    {
      var found := FirstAction(business.actions, id);
      if found.None? || !found.value.blocking { return; }
      var a := found.value;
      var i := EnsureRecordForAction(a, env);
      if records[i].status == PendingInterrupt {
        var r := records[i].(status := CancelledInterrupt);
        r := r.(resume := Some(ResumeOf(a, effect, CancelReason(reason, a))));
        r := r.(resolvedAt := Some(env.now));
        records := records[i := r];
      }
    }

    method MarkInterruptResumedFromAction(id: string, effect: Option<Effect>, env: Env)
      modifies `records
      ensures records == MarkResumed(old(records), business.actions, id, effect, env)
    {
      var found := FirstAction(business.actions, id);
      if found.None? || !found.value.blocking { return; }
      var a := found.value;
      var i := EnsureRecordForAction(a, env);
      if records[i].status == PendingInterrupt {
        if !AllowsResume(a, effect) {
          EnsuringFirstChangesNothing(old(records), business.actions, id, NOT_ALLOWED, effect, env);
          MarkInterruptCancelledFromAction(id, NOT_ALLOWED, effect, env);
          return;
        }
        var r := records[i].(status := ResumedInterrupt);
        r := r.(resume := Some(ResumeOf(a, effect, "")));
        r := r.(resolvedAt := Some(env.now));
        records := records[i := r];
      }
    }

    method MarkInterruptResumeConsumed(interruptId: string, now: int)
      modifies `records
      ensures records == MarkConsumed(old(records), interruptId, now)
    {
      var i := IndexById(records, interruptId);
      if i < |records| && records[i].consumedAt.None? {
        records := records[i := records[i].(consumedAt := Some(now))];
      }
    }

    /** The gate once the engine handed a value back; before that the engine stops inside it. */
    method ReviewInterruptGate(value: ResumeValue, env: Env)
      modifies this
      ensures View() == GateBoard(old(View()), value, env)
    {
      var _ := SyncInterruptRecords(env);
      SyncIsIdempotent(old(records), business.actions, env, env);
      var awaited := GetPendingBlockingInterrupt(env);
      if awaited.None? { return; }
      var i := FirstAwaiting(records, business.actions);
      var r := records[i];
      ghost var asSynced := r;
      r := r.(payload := Some(PayloadOf(business.actions, r, env.thread)));
      r := r.(status := ResumedInterrupt);
      r := r.(resume := Some(value));
      if r.resolvedAt.None? { r := r.(resolvedAt := Some(env.now)); }
      records := records[i := r];
      MarkInterruptResumeConsumed(r.interruptId, env.now);
      log := log + [GateResumed(asSynced)];
    }

    method ConsumeResumableInterruptIfNeeded(actionId: string, env: Env, engine: EngineReply)
      modifies this
      ensures View() == Consume(old(View()), actionId, env, engine)
      ensures business == old(business)
    {
      var _ := SyncInterruptRecords(env);
      var found, action := RecordOf(records, actionId), FirstAction(business.actions, actionId);
      if found.None? { return; }
      var r := found.value;
      if r.status != ResumedInterrupt || r.consumedAt.Some? { return; }
      if !MaySend(r, action, business.versions, env) { return; }
      if engine == NotInstalled || engine == Raised { return; }
      log := log + [EngineResumed(r, action.value, VersionById(business.versions, r.stageId))];
      MarkInterruptResumeConsumed(r.interruptId, env.now);
      var _ := SyncInterruptRecords(env);
    }

    method InvokeOneTurn(t: Workflow.Turn, env: Env) returns (ran: bool, raised: bool)
      modifies this
      ensures TurnOutcome(View(), ran, raised) == OneTurn(old(View()), t, env)
    {
      var _ := SyncInterruptRecords(env);
      SyncIsIdempotent(old(records), business.actions, env, env);
      var awaited := GetPendingBlockingInterrupt(env);
      if awaited.Some? { return false, false; }
      var step := Workflow.RunOneStep(business, t);
      business := step.project;
      if step.raised { return true, true; }
      var _ := SyncInterruptRecords(env);
      return true, false;
    }

    /** What the loop below does for one resolved action. */
    method PrepareResolution(id: string, env: Env)
      modifies `records
      ensures records == PrepareOne(old(records), business.actions, id, env)
    {
      var a := FirstAction(business.actions, id);
      if a.None? || a.value.decision == "" { return; }
      var effect := ResolutionEffect(a.value, a.value.decision, a.value.payloadAfter);
      if effect.allowContinue {
        MarkInterruptResumedFromAction(id, Some(effect), env);
      } else {
        MarkInterruptCancelledFromAction(id, EFFECT_MESSAGE, Some(effect), env);
      }
    }

    method PrepareExecutionAfterActionResolutions(ids: seq<string>, env: Env)
      modifies `records
      ensures records == Prepared(old(records), business.actions, ids, 0, env)
    {
      for k := 0 to |ids|
        invariant Prepared(records, business.actions, ids, k, env) == Prepared(old(records), business.actions, ids, 0, env)
      {
        PrepareResolution(ids[k], env);
      }
    }
  }

  /** Ensuring a record and then replacing it is one replacement. */
  lemma SyncOneIsPut(records: seq<InterruptRecord>, actions: seq<HumanAction>, a: HumanAction, env: Env)
    requires a.blocking
    ensures var i := RecordIndex(records, a.id);
      var ensured := Put(records, Ensured(records, actions, a, env));
      && i < |ensured| && ensured[i] == Ensured(records, actions, a, env)
      && SyncOne(records, actions, a, env) == ensured[i := SyncedRecord(ensured[i], a, env.now)]
  {
  }

  lemma EnsuringFirstChangesNothing(records: seq<InterruptRecord>, actions: seq<HumanAction>, id: string, reason: string,
                                    effect: Option<Effect>, env: Env)
    requires var a := FirstAction(actions, id); a.Some? && a.value.blocking
    ensures var a := FirstAction(actions, id).value;
      MarkCancelled(Put(records, Ensured(records, actions, a, env)), actions, id, reason, effect, env) ==
      MarkCancelled(records, actions, id, reason, effect, env)
  {
    var a := FirstAction(actions, id).value;
    var first := Put(records, Ensured(records, actions, a, env));
    PutLookup(records, Ensured(records, actions, a, env), a.id);
    assert Ensured(first, actions, a, env) == Ensured(records, actions, a, env);
    PutTwice(records, Ensured(records, actions, a, env),
             ClosedIfPending(Ensured(records, actions, a, env), CancelledInterrupt, ResumeOf(a, effect, CancelReason(reason, a)), env.now));
  }

  lemma PutTwice(records: seq<InterruptRecord>, r: InterruptRecord, q: InterruptRecord)
    requires r.actionId == q.actionId
    ensures Put(Put(records, r), q) == Put(records, q)
  {
    PutLookup(records, r, r.actionId);
    var i := RecordIndex(records, r.actionId);
    assert Put(records, r)[i] == r && RecordIndex(Put(records, r), r.actionId) == i;
  }
}
