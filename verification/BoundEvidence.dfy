/**
  What an approval is bound to: which changes of runs, calibrations, treatments, findings and actions end it, which
  do not, and what the release gate therefore allows.
 */
module BoundEvidence {
  import opened Prelude
  import opened Models
  import opened Lineage
  import opened ReleaseModels
  import opened EvaluationVersion
  import opened RiskTreatments
  import opened ReleaseEvidence
  import opened Approval
  import opened ReleaseRequirements

  // ----- counting ---------------------------------------------------------------------------

  /** How many kept elements show as `e`. */
  function Shown<T, E(==)>(items: seq<T>, keep: T -> bool, entry: T -> E, e: E): nat
  {
    if items == [] then 0 else Shown(items[1..], keep, entry, e) + if keep(items[0]) && entry(items[0]) == e then 1 else 0
  }

  lemma {:induction false} EntriesShown<T, E>(items: seq<T>, keep: T -> bool, entry: T -> E, e: E)
    ensures multiset(Map(Filter(items, keep), entry))[e] == Shown(items, keep, entry, e)
  {
    if items != [] {
      EntriesShown(items[1..], keep, entry, e);
      var rest := Map(Filter(items[1..], keep), entry);
      if keep(items[0]) {
        assert Map(Filter(items, keep), entry) == [entry(items[0])] + rest;
      } else {
        assert Filter(items, keep) == Filter(items[1..], keep);
      }
    }
  }

  ghost predicate SameShown<T, E(!new)>(a: seq<T>, b: seq<T>, keepA: T -> bool, keepB: T -> bool, entry: T -> E)
  {
    forall e :: Shown(a, keepA, entry, e) == Shown(b, keepB, entry, e)
  }

  lemma SameEntriesIff<T, E(!new)>(a: seq<T>, b: seq<T>, keepA: T -> bool, keepB: T -> bool, entry: T -> E)
    ensures multiset(Map(Filter(a, keepA), entry)) == multiset(Map(Filter(b, keepB), entry)) <==> SameShown(a, b, keepA, keepB, entry)
  {
    var m, n := multiset(Map(Filter(a, keepA), entry)), multiset(Map(Filter(b, keepB), entry));
    forall e ensures m[e] == Shown(a, keepA, entry, e) && n[e] == Shown(b, keepB, entry, e) {
      EntriesShown(a, keepA, entry, e);
      EntriesShown(b, keepB, entry, e);
    }
  }

  lemma {:induction false} ShownAdds<T, E>(a: seq<T>, b: seq<T>, keep: T -> bool, entry: T -> E, e: E)
    ensures Shown(a + b, keep, entry, e) == Shown(a, keep, entry, e) + Shown(b, keep, entry, e)
  {
    if a == [] {
      assert a + b == b;
    } else {
      ShownAdds(a[1..], b, keep, entry, e);
      assert (a + b)[1..] == a[1..] + b;
    }
  }

  lemma {:induction false} ShownAlike<T, E>(items: seq<T>, keep: T -> bool, also: T -> bool, entry: T -> E, e: E)
    requires forall x | x in items :: keep(x) == also(x)
    ensures Shown(items, keep, entry, e) == Shown(items, also, entry, e)
  {
    if items != [] { ShownAlike(items[1..], keep, also, entry, e); }
  }

  /** Replacing an element by one that shows otherwise changes what the list shows. */
  lemma ReplacingShows<T, E(!new)>(items: seq<T>, i: nat, y: T, keep: T -> bool, also: T -> bool, entry: T -> E)
    requires i < |items| && forall x :: keep(x) == also(x)
    requires keep(items[i]) || keep(y)
    requires keep(items[i]) && keep(y) ==> entry(items[i]) != entry(y)
    ensures !SameShown(items, items[i := y], keep, also, entry)
  {
    var x := items[i];
    var e := if keep(x) then entry(x) else entry(y);
    assert items == items[..i] + [x] + items[i + 1..] && items[i := y] == items[..i] + [y] + items[i + 1..];
    ShownAdds(items[..i] + [x], items[i + 1..], keep, entry, e);
    ShownAdds(items[..i], [x], keep, entry, e);
    ShownAdds(items[..i] + [y], items[i + 1..], keep, entry, e);
    ShownAdds(items[..i], [y], keep, entry, e);
    ShownAlike(items[i := y], keep, also, entry, e);
    OneShown(x, keep, entry, e);
    OneShown(y, keep, entry, e);
  }

  lemma OneShown<T, E>(x: T, keep: T -> bool, entry: T -> E, e: E)
    ensures Shown([x], keep, entry, e) == if keep(x) && entry(x) == e then 1 else 0
  {
  }

  lemma AppendingShows<T, E(!new)>(items: seq<T>, y: T, keep: T -> bool, also: T -> bool, entry: T -> E)
    requires (forall x :: keep(x) == also(x)) && keep(y)
    ensures !SameShown(items, items + [y], keep, also, entry)
  {
    ShownAdds(items, [y], keep, entry, entry(y));
    ShownAlike(items + [y], keep, also, entry, entry(y));
    OneShown(y, keep, entry, entry(y));
  }

  // ----- what is bound ------------------------------------------------------------------------

  function BatchRunIds(ctx: ReleaseContext): seq<string>
  {
    var r := BuildReadiness(ctx);
    if r.batch.Some? then r.batch.value.runIds else []
  }

  function OfBatch(ctx: ReleaseContext): EvalRun -> bool { (r: EvalRun) => r.runId in BatchRunIds(ctx) }

  function OnBatch(ctx: ReleaseContext): HumanCalibration -> bool { (c: HumanCalibration) => c.runId in BatchRunIds(ctx) }

  function Severe(): SafetyFinding -> bool { (f: SafetyFinding) => f.severity == High || f.severity == Critical }

  function Blocking(): HumanAction -> bool { (a: HumanAction) => a.blocking }

  function Whole<T>(): T -> T { (x: T) => x }

  /** Two runs that show alike differ in nothing but node, mode, kind, violated criteria and error message. */
  lemma RunsShowAlikeIff(r: EvalRun, s: EvalRun)
    ensures RunEntryOf(r) == RunEntryOf(s) <==>
      s == r.(targetNodeId := s.targetNodeId, mode := s.mode, kind := s.kind, violatedCriteria := s.violatedCriteria,
              errorMessage := s.errorMessage)
  {
  }

  /** Two actions that show alike agree in identifier, status, stage and version. */
  lemma ActionsShowAlikeIff(a: HumanAction, b: HumanAction)
    ensures ActionEntryOf(a) == ActionEntryOf(b) <==>
      b == HumanAction(a.id, a.stageId, a.version, b.nodeId, b.sourceType, b.actionType, a.status, b.decision, b.note,
                       b.payloadAfter, b.blocking, b.supersededBy)
  {
  }

  /** What stands for a source is the same treatment but for who made and last updated it and when. */
  ghost predicate SameTreatment(t: Option<RiskTreatment>, u: Option<RiskTreatment>)
  {
    && (t.Some? <==> u.Some?)
    && (t.Some? ==>
          u.value == t.value.(sourceType := u.value.sourceType, sourceId := u.value.sourceId, createdBy := u.value.createdBy,
                              updatedBy := u.value.updatedBy, updatedAt := u.value.updatedAt))
  }

  ghost predicate SameTreatments(ctx: ReleaseContext, q: ReleaseContext)
  {
    && |Requirements(q)| == |Requirements(ctx)|
    && forall k :: 0 <= k < |Requirements(ctx)| ==>
         var r, s := Requirements(ctx)[k], Requirements(q)[k];
         && s.sourceType == r.sourceType && s.sourceId == r.sourceId
         && SameTreatment(Latest(ctx.treatments, r.sourceType, r.sourceId), Latest(q.treatments, s.sourceType, s.sourceId))
  }

  ghost predicate SameBatch(ctx: ReleaseContext, q: ReleaseContext)
  {
    && (forall id :: id in BatchRunIds(q) <==> id in BatchRunIds(ctx))
    && multiset(BuildReadiness(q).requiredEvalIds) == multiset(BuildReadiness(ctx).requiredEvalIds)
  }

  /** Everything bound is as it was: the batch, its runs and calibrations, treatments, severe findings, blocking actions. */
  ghost predicate EvidenceStands(ctx: ReleaseContext, q: ReleaseContext)
  {
    && SameBatch(ctx, q)
    && SameShown(ctx.runs, q.runs, OfBatch(ctx), OfBatch(q), RunEntryOf)
    && SameShown(ctx.calibrations, q.calibrations, OnBatch(ctx), OnBatch(q), Whole())
    && SameTreatments(ctx, q)
    && SameShown(ctx.findings, q.findings, Severe(), Severe(), Whole())
    && SameShown(ctx.actions, q.actions, Blocking(), Blocking(), ActionEntryOf)
  }

  lemma TreatmentsStandIff(ctx: ReleaseContext, q: ReleaseContext)
    ensures TreatmentEntries(ctx) == TreatmentEntries(q) <==> SameTreatments(ctx, q)
  {
    var a, b := Requirements(ctx), Requirements(q);
    forall k | 0 <= k < |a| && k < |b|
      ensures TreatmentEntries(ctx)[k] == TreatmentEntries(q)[k] <==>
        && b[k].sourceType == a[k].sourceType && b[k].sourceId == a[k].sourceId
        && SameTreatment(Latest(ctx.treatments, a[k].sourceType, a[k].sourceId), Latest(q.treatments, b[k].sourceType, b[k].sourceId))
    {
    }
    if SameTreatments(ctx, q) { assert TreatmentEntries(ctx) == TreatmentEntries(q); }
    if TreatmentEntries(ctx) == TreatmentEntries(q) {
      assert |TreatmentEntries(ctx)| == |a| && |TreatmentEntries(q)| == |b|;
    }
  }

  lemma {:induction false} MapWhole<T>(items: seq<T>)
    ensures Map(items, Whole()) == items
  {
  }

  /** The filters of the snapshot, written with the tests used here. */
  lemma SnapshotParts(ctx: ReleaseContext)
    ensures var s, ids := CurrentEvidence(ctx), BatchRunIds(ctx);
      && s.Snapshot? && s.digest == CurrentDigest(ctx) && s.requiredEvalIds == multiset(BuildReadiness(ctx).requiredEvalIds)
      && s.batchRunIds == (set id | id in ids) && s.treatments == TreatmentEntries(ctx)
      && s.runs == multiset(Map(Filter(ctx.runs, OfBatch(ctx)), RunEntryOf))
      && s.calibrations == multiset(Map(Filter(ctx.calibrations, OnBatch(ctx)), Whole()))
      && s.findings == multiset(Map(Filter(ctx.findings, Severe()), Whole()))
      && s.actions == multiset(Map(Filter(ctx.actions, Blocking()), ActionEntryOf))
  {
    var ids := BatchRunIds(ctx);
    SameFilter(ctx.runs, OfBatch(ctx), (r: EvalRun) => r.runId in ids);
    SameFilter(ctx.calibrations, OnBatch(ctx), (c: HumanCalibration) => c.runId in ids);
    SameFilter(ctx.findings, Severe(), (f: SafetyFinding) => IsSevere(f.severity));
    SameFilter(ctx.actions, Blocking(), (a: HumanAction) => a.blocking);
    MapWhole(Filter(ctx.calibrations, OnBatch(ctx)));
    MapWhole(Filter(ctx.findings, Severe()));
  }

  lemma SnapshotsAgreeIff(ctx: ReleaseContext, q: ReleaseContext)
    ensures CurrentEvidence(q) == CurrentEvidence(ctx) <==>
      && CurrentDigest(q) == CurrentDigest(ctx) && SameBatch(ctx, q) && TreatmentEntries(ctx) == TreatmentEntries(q)
      && multiset(Map(Filter(ctx.runs, OfBatch(ctx)), RunEntryOf)) == multiset(Map(Filter(q.runs, OfBatch(q)), RunEntryOf))
      && multiset(Map(Filter(ctx.calibrations, OnBatch(ctx)), Whole())) == multiset(Map(Filter(q.calibrations, OnBatch(q)), Whole()))
      && multiset(Map(Filter(ctx.findings, Severe()), Whole())) == multiset(Map(Filter(q.findings, Severe()), Whole()))
      && multiset(Map(Filter(ctx.actions, Blocking()), ActionEntryOf)) == multiset(Map(Filter(q.actions, Blocking()), ActionEntryOf))
  {
    SnapshotParts(ctx);
    SnapshotParts(q);
    SameSetIff(BatchRunIds(q), BatchRunIds(ctx));
  }

  /** Two sessions bind the same evidence exactly if they have the same version and everything bound stands. */
  lemma SameEvidenceIff(ctx: ReleaseContext, q: ReleaseContext)
    ensures CurrentEvidence(q) == CurrentEvidence(ctx) <==> CurrentDigest(q) == CurrentDigest(ctx) && EvidenceStands(ctx, q)
  {
    SnapshotsAgreeIff(ctx, q);
    TreatmentsStandIff(ctx, q);
    SameEntriesIff(ctx.runs, q.runs, OfBatch(ctx), OfBatch(q), RunEntryOf);
    SameEntriesIff(ctx.calibrations, q.calibrations, OnBatch(ctx), OnBatch(q), Whole());
    SameEntriesIff(ctx.findings, q.findings, Severe(), Severe(), Whole());
    SameEntriesIff(ctx.actions, q.actions, Blocking(), Blocking(), ActionEntryOf);
  }

  lemma SameSetIff(a: seq<string>, b: seq<string>)
    ensures (set id | id in a) == (set id | id in b) <==> forall id :: id in a <==> id in b
  {
    var x, y := set id | id in a, set id | id in b;
    if x == y { forall id: string ensures id in a <==> id in b { assert id in x <==> id in a; assert id in y <==> id in b; } }
  }

  lemma EffectiveIff(q: ReleaseContext, a: ProjectApproval)
    ensures EffectiveStatus(q, Some(a)) == Approved <==>
      && a.status == ApprovedRecord && a.digest == CurrentDigest(q) && a.evidence == CurrentEvidence(q)
      && BuildReadiness(q).canApprove
  {
    EvidenceIsBound(q);
  }

  /**
    An approval granted to a session stands in another exactly if the version is the same, everything bound is as it
    was, and the session still meets every requirement of a release.
   */
  lemma ApprovalStandsIff(ctx: ReleaseContext, q: ReleaseContext, a: ProjectApproval)
    requires a.status == ApprovedRecord && a.digest == CurrentDigest(ctx) && a.evidence == CurrentEvidence(ctx)
    ensures EffectiveStatus(q, Some(a)) == Approved <==>
      CurrentDigest(q) == CurrentDigest(ctx) && EvidenceStands(ctx, q) && MeetsAllRequirements(q)
  {
    EffectiveIff(q, a);
    SameEvidenceIff(ctx, q);
    MayBeApprovedIff(q);
  }

  // ----- changes that end an approval ------------------------------------------------------------

  /** The batch of another session with the same runs in its batch keeps and drops the same. */
  lemma SameTests(ctx: ReleaseContext, q: ReleaseContext)
    requires SameBatch(ctx, q)
    ensures forall r: EvalRun :: OfBatch(ctx)(r) == OfBatch(q)(r)
    ensures forall c: HumanCalibration :: OnBatch(ctx)(c) == OnBatch(q)(c)
  {
  }

  /** Calibrating a run of the batch once more ends the approval, whatever the calibration says. */
  lemma RecalibrationEndsApproval(ctx: ReleaseContext, a: ProjectApproval, c: HumanCalibration)
    requires a.status == ApprovedRecord && a.digest == CurrentDigest(ctx) && a.evidence == CurrentEvidence(ctx)
    requires c.runId in BatchRunIds(ctx)
    ensures EffectiveStatus(ctx.(calibrations := ctx.calibrations + [c]), Some(a)) != Approved
  {
    var q := ctx.(calibrations := ctx.calibrations + [c]);
    ApprovalStandsIff(ctx, q, a);
    if EvidenceStands(ctx, q) {
      SameTests(ctx, q);
      AppendingShows(ctx.calibrations, c, OnBatch(ctx), OnBatch(q), Whole());
    }
  }

  /** So does any change of a batch run that shows: see `RunsShowAlikeIff`. */
  lemma ChangedRunEndsApproval(ctx: ReleaseContext, a: ProjectApproval, i: nat, r: EvalRun)
    requires a.status == ApprovedRecord && a.digest == CurrentDigest(ctx) && a.evidence == CurrentEvidence(ctx)
    requires i < |ctx.runs| && ctx.runs[i].runId in BatchRunIds(ctx) && RunEntryOf(r) != RunEntryOf(ctx.runs[i])
    ensures EffectiveStatus(ctx.(runs := ctx.runs[i := r]), Some(a)) != Approved
  {
    var q := ctx.(runs := ctx.runs[i := r]);
    ApprovalStandsIff(ctx, q, a);
    if EvidenceStands(ctx, q) {
      SameTests(ctx, q);
      ReplacingShows(ctx.runs, i, r, OfBatch(ctx), OfBatch(q), RunEntryOf);
    }
  }

  /** So does another treatment of a risk that must be treated. */
  lemma ChangedTreatmentEndsApproval(ctx: ReleaseContext, a: ProjectApproval, treatments: seq<RiskTreatment>, r: Requirement)
    requires a.status == ApprovedRecord && a.digest == CurrentDigest(ctx) && a.evidence == CurrentEvidence(ctx)
    requires r in Requirements(ctx)
    requires !SameTreatment(Latest(ctx.treatments, r.sourceType, r.sourceId), Latest(treatments, r.sourceType, r.sourceId))
    ensures EffectiveStatus(ctx.(treatments := treatments), Some(a)) != Approved
  {
    var q := ctx.(treatments := treatments);
    assert Requirements(q) == Requirements(ctx);
    var k :| 0 <= k < |Requirements(ctx)| && Requirements(ctx)[k] == r;
    ApprovalStandsIff(ctx, q, a);
  }

  /** So does a severe finding that is changed, or added. */
  lemma ChangedFindingEndsApproval(ctx: ReleaseContext, a: ProjectApproval, i: nat, f: SafetyFinding)
    requires a.status == ApprovedRecord && a.digest == CurrentDigest(ctx) && a.evidence == CurrentEvidence(ctx)
    ensures i < |ctx.findings| && f != ctx.findings[i] && (Severe()(ctx.findings[i]) || Severe()(f)) ==>
      EffectiveStatus(ctx.(findings := ctx.findings[i := f]), Some(a)) != Approved
    ensures Severe()(f) ==> EffectiveStatus(ctx.(findings := ctx.findings + [f]), Some(a)) != Approved
  {
    if i < |ctx.findings| {
      ApprovalStandsIff(ctx, ctx.(findings := ctx.findings[i := f]), a);
      if f != ctx.findings[i] && (Severe()(ctx.findings[i]) || Severe()(f)) {
        ReplacingShows(ctx.findings, i, f, Severe(), Severe(), Whole());
      }
    }
    ApprovalStandsIff(ctx, ctx.(findings := ctx.findings + [f]), a);
    if Severe()(f) { AppendingShows(ctx.findings, f, Severe(), Severe(), Whole()); }
  }

  predicate ShowsOtherwise(a: HumanAction, b: HumanAction)
  {
    (a.blocking || b.blocking) && (a.blocking && b.blocking ==> ActionEntryOf(a) != ActionEntryOf(b))
  }

  /** So does a blocking action that is resolved, reopened or otherwise changed to show differently, or added. */
  lemma ChangedActionEndsApproval(ctx: ReleaseContext, a: ProjectApproval, i: nat, x: HumanAction)
    requires a.status == ApprovedRecord && a.digest == CurrentDigest(ctx) && a.evidence == CurrentEvidence(ctx)
    ensures i < |ctx.actions| && ShowsOtherwise(ctx.actions[i], x) ==>
      EffectiveStatus(ctx.(actions := ctx.actions[i := x]), Some(a)) != Approved
    ensures x.blocking ==> EffectiveStatus(ctx.(actions := ctx.actions + [x]), Some(a)) != Approved
  {
    if i < |ctx.actions| {
      ApprovalStandsIff(ctx, ctx.(actions := ctx.actions[i := x]), a);
      if ShowsOtherwise(ctx.actions[i], x) { ReplacingShows(ctx.actions, i, x, Blocking(), Blocking(), ActionEntryOf); }
    }
    ApprovalStandsIff(ctx, ctx.(actions := ctx.actions + [x]), a);
    if x.blocking { AppendingShows(ctx.actions, x, Blocking(), Blocking(), ActionEntryOf); }
  }

  // ----- what the gate allows ----------------------------------------------------------------------

  function Any<T>(): T -> bool { (x: T) => true }

  lemma {:induction false} NewestListed<T(!new)>(items: seq<T>, time: T -> int) returns (i: nat)
    requires items != []
    ensures IsNewestAt(items, i, Any(), time) && Newest(items, time) == items[i]
  {
    var n := |items| - 1;
    i := n;
    if n > 0 {
      var k := NewestListed(items[..n], time);
      NewestWithMore(items, n, k, Any(), time);
      assert items == items[..n] + [items[n]];
      NewestOfAppend(items[..n], items[n], time);
      if time(items[k]) > time(items[n]) { i := k; }
    }
  }

  function DecidedAt(): ProjectApproval -> int { (a: ProjectApproval) => a.createdAt }

  /** The newest decision, the last stored among equals. */
  ghost predicate IsLatestDecision(approvals: seq<ProjectApproval>, i: nat) { IsNewestAt(approvals, i, Any(), DecidedAt()) }

  lemma LatestDecisionIs(approvals: seq<ProjectApproval>) returns (i: nat)
    ensures LatestApproval(approvals).None? <==> approvals == []
    ensures approvals != [] ==> IsLatestDecision(approvals, i) && LatestApproval(approvals) == Some(approvals[i])
    ensures forall j: nat :: IsLatestDecision(approvals, j) ==> j == i
  {
    i := 0;
    if approvals != [] {
      i := NewestListed(approvals, DecidedAt());
      SameNewest(approvals, (a: ProjectApproval) => a.createdAt, DecidedAt());
      forall j: nat | IsLatestDecision(approvals, j) ensures j == i { NewestIsUnique(approvals, i, j, Any(), DecidedAt()); }
    }
  }

  lemma {:induction false} SameNewest<T>(items: seq<T>, time: T -> int, also: T -> int)
    requires items != [] && forall x | x in items :: time(x) == also(x)
    ensures Newest(items, time) == Newest(items, also)
  {
    if |items| > 1 { SameNewest(items[..|items| - 1], time, also); }
  }

  /**
    The gate allows a release exactly if the newest decision is an approval of the current version and evidence and
    the session meets every requirement now.
   */
  lemma GateAllowsIff(s: Session)
    ensures EvaluateGate(s).allow <==>
      && MeetsAllRequirements(s.ctx)
      && exists i: nat ::
           && IsLatestDecision(s.approvals, i) && s.approvals[i].status == ApprovedRecord
           && s.approvals[i].digest == CurrentDigest(s.ctx) && s.approvals[i].evidence == CurrentEvidence(s.ctx)
  {
    var i := LatestDecisionIs(s.approvals);
    GateIsExact(s);
    MayBeApprovedIff(s.ctx);
    if s.approvals != [] { EffectiveIff(s.ctx, s.approvals[i]); }
  }
}
