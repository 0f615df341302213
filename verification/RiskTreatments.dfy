/** Treatment plans for high and critical risks: what must be treated, who may review, and what a review covers. */
module RiskTreatments {
  import opened Prelude
  import opened ReleaseModels
  import opened EvaluationVersion

  // ----- what must be treated ---------------------------------------------------

  datatype Requirement = Requirement(sourceType: SourceType, sourceId: string, level: Severity, title: string)

  predicate Covers(reqs: seq<Requirement>, sourceType: SourceType, sourceId: string)
  {
    exists r :: r in reqs && r.sourceType == sourceType && r.sourceId == sourceId
  }

  function AddFailureMode(reqs: seq<Requirement>, m: FailureMode): seq<Requirement>
  {
    if !IsSevere(m.severity) || Covers(reqs, FailureModeSource, m.id) then reqs
    else reqs + [Requirement(FailureModeSource, m.id, m.severity, m.category)]
  }

  function AddFailureModes(reqs: seq<Requirement>, modes: seq<FailureMode>): seq<Requirement>
    decreases |modes|
  {
    if modes == [] then reqs else AddFailureModes(AddFailureMode(reqs, modes[0]), modes[1..])
  }

  predicate IsOpenRisk(f: SafetyFinding) { f.status == Open && IsSevere(f.severity) }

  function AddFinding(reqs: seq<Requirement>, f: SafetyFinding): seq<Requirement>
  {
    if !IsOpenRisk(f) || Covers(reqs, SafetyFindingSource, f.id) then reqs
    else reqs + [Requirement(SafetyFindingSource, f.id, f.severity, f.id)]
  }

  function AddFindings(reqs: seq<Requirement>, findings: seq<SafetyFinding>): seq<Requirement>
    decreases |findings|
  {
    if findings == [] then reqs else AddFindings(AddFinding(reqs, findings[0]), findings[1..])
  }

  function Modes(ctx: ReleaseContext): seq<FailureMode>
  {
    if ctx.stage1.Some? then ctx.stage1.value else []
  }

  function Requirements(ctx: ReleaseContext): seq<Requirement>
  {
    AddFindings(AddFailureModes([], Modes(ctx)), ctx.findings)
  }

  ghost predicate OnePerSource(reqs: seq<Requirement>)
  {
    forall i, j :: 0 <= i < j < |reqs| ==>
      !(reqs[i].sourceType == reqs[j].sourceType && reqs[i].sourceId == reqs[j].sourceId)
  }

  lemma {:induction false} FailureModesAreCovered(reqs: seq<Requirement>, modes: seq<FailureMode>, t: SourceType, id: string)
    requires OnePerSource(reqs)
    ensures OnePerSource(AddFailureModes(reqs, modes))
    ensures Covers(AddFailureModes(reqs, modes), t, id) <==>
      Covers(reqs, t, id) || (t == FailureModeSource && exists m :: m in modes && IsSevere(m.severity) && m.id == id)
    decreases |modes|
  {
    if modes != [] {
      var next := AddFailureMode(reqs, modes[0]);
      if next != reqs {
        assert next[|reqs|] in next;
        forall r | r in reqs ensures r in next {}
      }
      FailureModesAreCovered(next, modes[1..], t, id);
      assert modes == [modes[0]] + modes[1..];
    }
  }

  lemma {:induction false} FindingsAreCovered(reqs: seq<Requirement>, findings: seq<SafetyFinding>, t: SourceType, id: string)
    requires OnePerSource(reqs)
    ensures OnePerSource(AddFindings(reqs, findings))
    ensures Covers(AddFindings(reqs, findings), t, id) <==>
      Covers(reqs, t, id) || (t == SafetyFindingSource && exists f :: f in findings && IsOpenRisk(f) && f.id == id)
    decreases |findings|
  {
    if findings != [] {
      var next := AddFinding(reqs, findings[0]);
      if next != reqs {
        assert next[|reqs|] in next;
        forall r | r in reqs ensures r in next {}
      }
      FindingsAreCovered(next, findings[1..], t, id);
      assert findings == [findings[0]] + findings[1..];
    }
  }

  /** Exactly the severe failure modes and the open severe findings must be treated, each once. */
  lemma RequirementsAreExact(ctx: ReleaseContext, t: SourceType, id: string)
    ensures OnePerSource(Requirements(ctx))
    ensures Covers(Requirements(ctx), t, id) <==>
      match t
      case FailureModeSource => exists m :: m in Modes(ctx) && IsSevere(m.severity) && m.id == id
      case SafetyFindingSource => exists f :: f in ctx.findings && IsOpenRisk(f) && f.id == id
  {
    FailureModesAreCovered([], Modes(ctx), t, id);
    FindingsAreCovered(AddFailureModes([], Modes(ctx)), ctx.findings, t, id);
  }

  // ----- judging a treatment -------------------------------------------------------

  datatype TreatmentState = Missing | IncompleteFields | StaleTreatment | NotFinal | Unreviewed | CompleteTreatment

  predicate IsFinal(s: TreatmentStatus) { s == TreatmentCompleted || s == Accepted }

  function EvaluateTreatment(t: Option<RiskTreatment>, digest: VersionDigest): TreatmentState
  {
    if t.None? then Missing
    else if IsBlank(t.value.owner) || IsBlank(t.value.plan) then IncompleteFields
    else if t.value.digest != digest then StaleTreatment
    else if !IsFinal(t.value.status) then NotFinal
    else if IsBlank(t.value.reviewedBy) then Unreviewed
    else CompleteTreatment
  }

  predicate Treats(t: RiskTreatment, sourceType: SourceType, sourceId: string)
  {
    t.sourceType == sourceType && t.sourceId == sourceId
  }

  /** Index of the most recently updated treatment of a source, the last listed among equals. */
  function LatestIndex(ts: seq<RiskTreatment>, sourceType: SourceType, sourceId: string): (r: Option<nat>)
    ensures r.Some? ==> r.value < |ts| && Treats(ts[r.value], sourceType, sourceId)
    ensures r.None? ==> forall t :: t in ts ==> !Treats(t, sourceType, sourceId)
  {
    if ts == [] then None
    else
      var n := |ts| - 1;
      var r := LatestIndex(ts[..n], sourceType, sourceId);
      assert forall t :: t in ts ==> t in ts[..n] || t == ts[n];
      if Treats(ts[n], sourceType, sourceId) && (r.None? || ts[r.value].updatedAt <= ts[n].updatedAt) then Some(n) else r
  }

  function Latest(ts: seq<RiskTreatment>, sourceType: SourceType, sourceId: string): Option<RiskTreatment>
  {
    match LatestIndex(ts, sourceType, sourceId) case None => None case Some(i) => Some(ts[i])
  }

  predicate IsBusiness(ctx: ReleaseContext) { ctx.inputs.classification != PublicDemo }

  datatype TreatmentBlocker = TreatmentBlocker(requirement: Requirement, gap: TreatmentState)

  function BlockersFor(reqs: seq<Requirement>, ts: seq<RiskTreatment>, digest: VersionDigest): seq<TreatmentBlocker>
  {
    if reqs == [] then []
    else
      var last := reqs[|reqs| - 1];
      var state := EvaluateTreatment(Latest(ts, last.sourceType, last.sourceId), digest);
      BlockersFor(reqs[..|reqs| - 1], ts, digest) +
      if state == CompleteTreatment then [] else [TreatmentBlocker(last, state)]
  }

  function TreatmentBlockers(ctx: ReleaseContext): seq<TreatmentBlocker>
  {
    if IsBusiness(ctx) then BlockersFor(Requirements(ctx), ctx.treatments, CurrentDigest(ctx)) else []
  }

  lemma {:induction false} NoBlockerMeansAllComplete(reqs: seq<Requirement>, ts: seq<RiskTreatment>, digest: VersionDigest)
    ensures BlockersFor(reqs, ts, digest) == [] <==>
      forall r :: r in reqs ==> EvaluateTreatment(Latest(ts, r.sourceType, r.sourceId), digest) == CompleteTreatment
  {
    if reqs != [] {
      NoBlockerMeansAllComplete(reqs[..|reqs| - 1], ts, digest);
      assert forall r :: r in reqs <==> r in reqs[..|reqs| - 1] || r == reqs[|reqs| - 1];
    }
  }

  // ----- updating and reviewing ------------------------------------------------------

  datatype TreatmentError =
    | RoleNotAllowed | UnsupportedStatus | NotAnOpenRisk | OwnerRequired | PlanRequired
    | ReviewerRequired | NotFound | SelfReview | VersionChanged | StatusNotFinal

  predicate MayWrite(role: string) { role == "editor" || role == "admin" }

  /** A status outside the supported ones arrives as None. */
  datatype Submission = Submission(
    sourceType: SourceType, sourceId: string, owner: string, plan: string, status: Option<TreatmentStatus>,
    note: string, actor: string, role: string)

  function CheckSubmission(ctx: ReleaseContext, s: Submission): Option<TreatmentError>
  {
    if !MayWrite(s.role) then Some(RoleNotAllowed)
    else if s.status.None? then Some(UnsupportedStatus)
    else if !Covers(Requirements(ctx), s.sourceType, s.sourceId) then Some(NotAnOpenRisk)
    else if Strip(s.owner) == "" then Some(OwnerRequired)
    else if Strip(s.plan) == "" then Some(PlanRequired)
    else None
  }

  predicate SameContent(t: RiskTreatment, s: Submission)
    requires s.status.Some?
  {
    t.owner == Strip(s.owner) && t.plan == Strip(s.plan) && t.status == s.status.value
  }

  function Updated(t: RiskTreatment, s: Submission, digest: VersionDigest, now: int): RiskTreatment
    requires s.status.Some?
  {
    var keep := SameContent(t, s) && t.digest == digest;
    t.(owner := Strip(s.owner), plan := Strip(s.plan), status := s.status.value, reviewNote := s.note, digest := digest,
       updatedBy := s.actor, updatedAt := now,
       reviewedBy := if keep then t.reviewedBy else "", reviewedAt := if keep then t.reviewedAt else None)
  }

  function NewTreatment(id: string, s: Submission, digest: VersionDigest, now: int): RiskTreatment
    requires s.status.Some?
  {
    RiskTreatment(id, s.sourceType, s.sourceId, Strip(s.owner), Strip(s.plan), s.status.value, s.note, "", None,
                  digest, s.actor, s.actor, now)
  }

  function Upsert(ctx: ReleaseContext, s: Submission, newId: string, now: int): (r: Result<ReleaseContext, TreatmentError>)
    ensures r.Ok? ==> |ctx.treatments| <= |r.value.treatments| <= |ctx.treatments| + 1
  {
    match CheckSubmission(ctx, s)
    case Some(e) => Err(e)
    case None =>
      var digest := CurrentDigest(ctx);
      match LatestIndex(ctx.treatments, s.sourceType, s.sourceId)
      case None => Ok(ctx.(treatments := ctx.treatments + [NewTreatment(newId, s, digest, now)]))
      case Some(i) => Ok(ctx.(treatments := ctx.treatments[i := Updated(ctx.treatments[i], s, digest, now)]))
  }

  datatype ReviewDecision = Accept | RejectPlan

  datatype ReviewRequest = ReviewRequest(id: string, decision: ReviewDecision, note: string, actor: string, role: string)

  function FindTreatment(ts: seq<RiskTreatment>, id: string): (i: nat)
    ensures i <= |ts|
    ensures i < |ts| ==> ts[i].id == id
    ensures forall j :: 0 <= j < i ==> ts[j].id != id
  {
    FirstIndex(ts, (t: RiskTreatment) => t.id == id)
  }

  function CheckReview(ctx: ReleaseContext, r: ReviewRequest): Option<TreatmentError>
  {
    var i := FindTreatment(ctx.treatments, r.id);
    if !MayWrite(r.role) then Some(RoleNotAllowed)
    else if Strip(r.actor) == "" then Some(ReviewerRequired)
    else if i == |ctx.treatments| then Some(NotFound)
    else if Strip(r.actor) == Strip(ctx.treatments[i].updatedBy) then Some(SelfReview)
    else if ctx.treatments[i].digest != CurrentDigest(ctx) then Some(VersionChanged)
    else if r.decision == Accept && !IsFinal(ctx.treatments[i].status) then Some(StatusNotFinal)
    else None
  }

  function Reviewed(t: RiskTreatment, r: ReviewRequest, now: int): RiskTreatment
  {
    match r.decision
    case Accept => t.(reviewedBy := Strip(r.actor), reviewedAt := Some(now), reviewNote := r.note, updatedAt := now)
    case RejectPlan => t.(status := InTreatment, reviewedBy := "", reviewedAt := None, reviewNote := r.note, updatedAt := now)
  }

  function Review(ctx: ReleaseContext, r: ReviewRequest, now: int): (reply: Result<ReleaseContext, TreatmentError>)
    ensures reply.Ok? ==>
      FindTreatment(ctx.treatments, r.id) < |ctx.treatments| && |reply.value.treatments| == |ctx.treatments|
  {
    match CheckReview(ctx, r)
    case Some(e) => Err(e)
    case None =>
      var i := FindTreatment(ctx.treatments, r.id);
      Ok(ctx.(treatments := ctx.treatments[i := Reviewed(ctx.treatments[i], r, now)]))
  }

  predicate MustBeTreated(ctx: ReleaseContext, t: SourceType, id: string)
  {
    match t
    case FailureModeSource => exists m :: m in Modes(ctx) && m.severity in {High, Critical} && m.id == id
    case SafetyFindingSource => exists f :: f in ctx.findings && f.status == Open && f.severity in {High, Critical} && f.id == id
  }

  /** A plan is taken exactly from an editor or admin, for a risk that must be treated now, with a status, an owner and a plan. */
  lemma SubmissionIsTakenIff(ctx: ReleaseContext, s: Submission, newId: string, now: int)
    ensures Upsert(ctx, s, newId, now).Ok? <==>
      && s.role in {"editor", "admin"} && s.status.Some? && MustBeTreated(ctx, s.sourceType, s.sourceId)
      && !IsBlank(s.owner) && !IsBlank(s.plan)
  {
    RequirementsAreExact(ctx, s.sourceType, s.sourceId);
  }

  /** Where the treatment of a submission goes: in place of the latest of its source, or at the end. */
  function PlaceOf(ts: seq<RiskTreatment>, s: Submission): nat
  {
    match LatestIndex(ts, s.sourceType, s.sourceId) case None => |ts| case Some(i) => i
  }

  /** It then stands as submitted, under the current version, for its source; nothing else is touched. */
  lemma SubmissionLeadsTo(ctx: ReleaseContext, s: Submission, newId: string, now: int)
    requires Upsert(ctx, s, newId, now).Ok?
    ensures var next := Upsert(ctx, s, newId, now).value;
      var i := PlaceOf(ctx.treatments, s);
      && next == ctx.(treatments := next.treatments) && i < |next.treatments|
      && (forall j :: 0 <= j < |next.treatments| && j != i ==> j < |ctx.treatments| && next.treatments[j] == ctx.treatments[j])
      && var t := next.treatments[i];
         && Treats(t, s.sourceType, s.sourceId) && t.status == s.status.value && t.digest == CurrentDigest(ctx)
         && t.owner == Strip(s.owner) && t.plan == Strip(s.plan) && t.reviewNote == s.note
         && t.updatedBy == s.actor && t.updatedAt == now
         && t.id == (if i < |ctx.treatments| then ctx.treatments[i].id else newId)
         && t.createdBy == (if i < |ctx.treatments| then ctx.treatments[i].createdBy else s.actor)
  {
  }

  /** A review is taken exactly from an editor or admin other than the last updater, of a plan of the current version. */
  lemma ReviewIsTakenIff(ctx: ReleaseContext, r: ReviewRequest, now: int)
    ensures Review(ctx, r, now).Ok? <==>
      && r.role in {"editor", "admin"} && !IsBlank(r.actor)
      && exists i :: 0 <= i < |ctx.treatments| && ctx.treatments[i].id == r.id && (forall j :: 0 <= j < i ==> ctx.treatments[j].id != r.id)
           && Strip(ctx.treatments[i].updatedBy) != Strip(r.actor) && ctx.treatments[i].digest == CurrentDigest(ctx)
           && (r.decision == Accept ==> ctx.treatments[i].status in {TreatmentCompleted, Accepted})
  {
  }

  /**
    Accepting signs the plan as it stands; rejecting sends it back to treatment unsigned, so that it no longer counts as
    complete. Nothing else is touched.
   */
  lemma ReviewLeadsTo(ctx: ReleaseContext, r: ReviewRequest, now: int)
    requires Review(ctx, r, now).Ok?
    ensures var next, i := Review(ctx, r, now).value, FindTreatment(ctx.treatments, r.id);
      && next == ctx.(treatments := next.treatments) && |next.treatments| == |ctx.treatments|
      && (forall j :: 0 <= j < |ctx.treatments| && j != i ==> next.treatments[j] == ctx.treatments[j])
      && var before, t := ctx.treatments[i], next.treatments[i];
         && t.updatedAt == now && t.reviewNote == r.note
         && t.(status := before.status, reviewedBy := before.reviewedBy, reviewedAt := before.reviewedAt,
               reviewNote := before.reviewNote, updatedAt := before.updatedAt) == before
         && (match r.decision
             case Accept => t.status == before.status && t.reviewedBy == Strip(r.actor) && t.reviewedAt == Some(now)
             case RejectPlan => t.status == InTreatment && t.reviewedBy == "" && t.reviewedAt == None)
         && (r.decision == RejectPlan ==> EvaluateTreatment(Some(t), CurrentDigest(next)) != CompleteTreatment)
  {
  }

  // ----- runs ---------------------------------------------------------------------------

  /** What a reviewer accepted: the plan as it stood and the evaluation version current at that moment. */
  datatype AcceptedReview = NoReview | AcceptedPlan(
    owner: string, plan: string, status: TreatmentStatus, reviewer: string, under: VersionDigest)

  datatype TreatmentStep =
    | SubmitPlan(submission: Submission, newId: string, now: int)
    | ReviewPlan(request: ReviewRequest, reviewedNow: int)
    // any other service: everything but the treatments may change
    | OtherChange(next: ReleaseContext)

  /** The accepted plans are remembered beside the treatments; the code keeps only the reviewer. */
  datatype Register = Register(ctx: ReleaseContext, accepted: seq<AcceptedReview>)

  function Remember(t: RiskTreatment): AcceptedReview
  {
    AcceptedPlan(t.owner, t.plan, t.status, t.reviewedBy, t.digest)
  }

  function DoTreatment(g: Register, s: TreatmentStep): (r: Register)
    requires |g.accepted| == |g.ctx.treatments|
    ensures |r.accepted| == |r.ctx.treatments|
  {
    match s
    case OtherChange(next) => g.(ctx := next.(treatments := g.ctx.treatments))
    case SubmitPlan(submission, newId, now) =>
      (match Upsert(g.ctx, submission, newId, now)
       case Err(_) => g
       case Ok(ctx) =>
         Register(ctx, if |ctx.treatments| > |g.accepted| then g.accepted + [NoReview] else g.accepted))
    case ReviewPlan(request, now) =>
      (match Review(g.ctx, request, now)
       case Err(_) => g
       case Ok(ctx) =>
         var i := FindTreatment(g.ctx.treatments, request.id);
         var memory := if request.decision == Accept
                       then AcceptedPlan(ctx.treatments[i].owner, ctx.treatments[i].plan, ctx.treatments[i].status,
                                         Strip(request.actor), CurrentDigest(g.ctx))
                       else NoReview;
         Register(ctx, g.accepted[i := memory]))
  }

  ghost predicate TreatmentsSound(ts: seq<RiskTreatment>, accepted: seq<AcceptedReview>)
  {
    && |accepted| == |ts|
    && (forall i, j :: 0 <= i < j < |ts| ==> !(ts[i].sourceType == ts[j].sourceType && ts[i].sourceId == ts[j].sourceId))
    && (forall i :: 0 <= i < |ts| && ts[i].reviewedBy != "" ==> accepted[i] == Remember(ts[i]) && IsFinal(ts[i].status))
    && (forall i :: 0 <= i < |ts| ==> !IsBlank(ts[i].owner) && !IsBlank(ts[i].plan))
  }

  ghost predicate TreatmentInvariant(g: Register)
  {
    TreatmentsSound(g.ctx.treatments, g.accepted)
  }

  lemma AddingKeepsSound(ts: seq<RiskTreatment>, accepted: seq<AcceptedReview>, t: RiskTreatment)
    requires TreatmentsSound(ts, accepted)
    requires LatestIndex(ts, t.sourceType, t.sourceId).None?
    requires t.reviewedBy == "" && !IsBlank(t.owner) && !IsBlank(t.plan)
    ensures TreatmentsSound(ts + [t], accepted + [NoReview])
  {
    forall i | 0 <= i < |ts| ensures !Treats(ts[i], t.sourceType, t.sourceId) { assert ts[i] in ts; }
  }

  lemma ReplacingKeepsSound(ts: seq<RiskTreatment>, accepted: seq<AcceptedReview>, i: nat, t: RiskTreatment, a: AcceptedReview)
    requires TreatmentsSound(ts, accepted) && i < |ts|
    requires t.sourceType == ts[i].sourceType && t.sourceId == ts[i].sourceId
    requires t.reviewedBy != "" ==> a == Remember(t) && IsFinal(t.status)
    requires !IsBlank(t.owner) && !IsBlank(t.plan)
    ensures TreatmentsSound(ts[i := t], accepted[i := a])
  {
  }

  lemma UpdateKeepsSound(g: Register, s: Submission, i: nat, now: int)
    requires TreatmentInvariant(g) && CheckSubmission(g.ctx, s).None? && i < |g.ctx.treatments|
    ensures TreatmentsSound(g.ctx.treatments[i := Updated(g.ctx.treatments[i], s, CurrentDigest(g.ctx), now)], g.accepted)
  {
    StripTwice(s.owner);
    StripTwice(s.plan);
    ReplacingKeepsSound(g.ctx.treatments, g.accepted, i, Updated(g.ctx.treatments[i], s, CurrentDigest(g.ctx), now), g.accepted[i]);
    assert g.accepted[i := g.accepted[i]] == g.accepted;
  }

  lemma NewKeepsSound(g: Register, s: Submission, newId: string, now: int)
    requires TreatmentInvariant(g) && CheckSubmission(g.ctx, s).None?
    requires LatestIndex(g.ctx.treatments, s.sourceType, s.sourceId).None?
    ensures TreatmentsSound(g.ctx.treatments + [NewTreatment(newId, s, CurrentDigest(g.ctx), now)], g.accepted + [NoReview])
  {
    StripTwice(s.owner);
    StripTwice(s.plan);
    AddingKeepsSound(g.ctx.treatments, g.accepted, NewTreatment(newId, s, CurrentDigest(g.ctx), now));
  }

  lemma SubmitKeepsTreatments(g: Register, s: Submission, newId: string, now: int)
    requires TreatmentInvariant(g)
    ensures TreatmentInvariant(DoTreatment(g, SubmitPlan(s, newId, now)))
  {
    if CheckSubmission(g.ctx, s).None? {
      match LatestIndex(g.ctx.treatments, s.sourceType, s.sourceId)
      case None => NewKeepsSound(g, s, newId, now);
      case Some(i) => UpdateKeepsSound(g, s, i, now);
    }
  }

  lemma ReviewKeepsTreatments(g: Register, r: ReviewRequest, now: int)
    requires TreatmentInvariant(g)
    ensures TreatmentInvariant(DoTreatment(g, ReviewPlan(r, now)))
  {
    StripTwice(r.actor);
    if CheckReview(g.ctx, r).None? {
      var i := FindTreatment(g.ctx.treatments, r.id);
      var t := Reviewed(g.ctx.treatments[i], r, now);
      var a := if r.decision == Accept then AcceptedPlan(t.owner, t.plan, t.status, Strip(r.actor), CurrentDigest(g.ctx))
               else NoReview;
      ReplacingKeepsSound(g.ctx.treatments, g.accepted, i, t, a);
    }
  }

  lemma StepKeepsTreatments(g: Register, s: TreatmentStep)
    requires TreatmentInvariant(g)
    ensures TreatmentInvariant(DoTreatment(g, s))
  {
    match s
    case OtherChange(_) =>
    case SubmitPlan(submission, newId, now) => SubmitKeepsTreatments(g, submission, newId, now);
    case ReviewPlan(request, now) => ReviewKeepsTreatments(g, request, now);
  }

  function RunTreatments(ctx: ReleaseContext, steps: seq<TreatmentStep>): (g: Register)
    ensures |g.accepted| == |g.ctx.treatments|
  {
    if steps == [] then Register(ctx.(treatments := []), [])
    else
      var g := RunTreatments(ctx, steps[..|steps| - 1]);
      DoTreatment(g, steps[|steps| - 1])
  }

  lemma {:induction false} TreatmentsHoldInEveryRun(ctx: ReleaseContext, steps: seq<TreatmentStep>)
    ensures TreatmentInvariant(RunTreatments(ctx, steps))
  {
    if steps != [] {
      TreatmentsHoldInEveryRun(ctx, steps[..|steps| - 1]);
      StepKeepsTreatments(RunTreatments(ctx, steps[..|steps| - 1]), steps[|steps| - 1]);
    }
  }

  /**
    After any interleaving of submissions, reviews and version changes, each risk source has at most one
    treatment; and one that counts as complete was accepted, exactly as it stands, under the current version.
   */
  lemma CompleteMeansReviewedAsItStands(ctx: ReleaseContext, steps: seq<TreatmentStep>, i: nat)
    requires i < |RunTreatments(ctx, steps).ctx.treatments|
    ensures var g := RunTreatments(ctx, steps);
      var t := g.ctx.treatments[i];
      && LatestIndex(g.ctx.treatments, t.sourceType, t.sourceId) == Some(i)
      && (EvaluateTreatment(Some(t), CurrentDigest(g.ctx)) == CompleteTreatment <==>
            t.reviewedBy != "" && !IsBlank(t.reviewedBy) && t.digest == CurrentDigest(g.ctx))
      && (EvaluateTreatment(Some(t), CurrentDigest(g.ctx)) == CompleteTreatment ==>
            g.accepted[i] == AcceptedPlan(t.owner, t.plan, t.status, t.reviewedBy, CurrentDigest(g.ctx)))
  {
    TreatmentsHoldInEveryRun(ctx, steps);
    var ts := RunTreatments(ctx, steps).ctx.treatments;
    var found := LatestIndex(ts, ts[i].sourceType, ts[i].sourceId);
    assert ts[i] in ts && Treats(ts[i], ts[i].sourceType, ts[i].sourceId);
    if found.value != i { assert false; }
  }

  /**
    The reviewer differs from the last updater when a plan is accepted, but not for ever: the accepting
    reviewer may resubmit the same plan under the same version, which keeps the review. Exactly then does a
    successful update leave a standing review by the last updater.
   */
  lemma ReviewerIndependenceLapsesOnlyBySelfResubmission(t: RiskTreatment, s: Submission, digest: VersionDigest, now: int)
    requires s.status.Some? && t.reviewedBy != ""
    ensures var u := Updated(t, s, digest, now);
      u.reviewedBy != "" && u.reviewedBy == Strip(u.updatedBy)
      <==> SameContent(t, s) && t.digest == digest && Strip(s.actor) == t.reviewedBy
  {
  }

  lemma AcceptingReviewerIsIndependent(ctx: ReleaseContext, r: ReviewRequest, now: int)
    requires Review(ctx, r, now).Ok? && r.decision == Accept
    ensures var i := FindTreatment(ctx.treatments, r.id);
      var t := Review(ctx, r, now).value.treatments[i];
      t.reviewedBy != "" && t.reviewedBy != Strip(t.updatedBy) && t.digest == CurrentDigest(ctx)
      && EvaluateTreatment(Some(t), CurrentDigest(Review(ctx, r, now).value)) in
         {CompleteTreatment, IncompleteFields}
  {
    StripTwice(r.actor);
    var after := Review(ctx, r, now).value;
    assert CurrentDigest(after) == CurrentDigest(ctx);
  }

  // ----- the services ------------------------------------------------------------------------

  class TreatmentService {
    var ctx: ReleaseContext

    constructor (ctx: ReleaseContext)
      ensures this.ctx == ctx
    {
      this.ctx := ctx;
    }

    method HighRiskTreatmentRequirements() returns (requirements: seq<Requirement>)
      ensures requirements == Requirements(ctx)
    {
      requirements := [];
      var modes := Modes(ctx);
      for i := 0 to |modes|
        invariant AddFailureModes(requirements, modes[i..]) == AddFailureModes([], modes)
      {
        assert modes[i..][1..] == modes[i + 1..];
        var m := modes[i];
        if IsSevere(m.severity) && !Covers(requirements, FailureModeSource, m.id) {
          requirements := requirements + [Requirement(FailureModeSource, m.id, m.severity, m.category)];
        }
      }
      ghost var fromModes := requirements;
      for i := 0 to |ctx.findings|
        invariant AddFindings(requirements, ctx.findings[i..]) == AddFindings(fromModes, ctx.findings)
      {
        assert ctx.findings[i..][1..] == ctx.findings[i + 1..];
        var f := ctx.findings[i];
        if IsOpenRisk(f) && !Covers(requirements, SafetyFindingSource, f.id) {
          requirements := requirements + [Requirement(SafetyFindingSource, f.id, f.severity, f.id)];
        }
      }
    }

    method CollectTreatmentBlockers() returns (blockers: seq<TreatmentBlocker>)
      ensures blockers == TreatmentBlockers(ctx)
    {
      blockers := [];
      if !IsBusiness(ctx) { return; }
      var digest := CurrentDigest(ctx);
      var requirements := HighRiskTreatmentRequirements();
      for i := 0 to |requirements|
        invariant blockers == BlockersFor(requirements[..i], ctx.treatments, digest)
      {
        assert requirements[..i + 1][..i] == requirements[..i];
        var state := EvaluateTreatment(Latest(ctx.treatments, requirements[i].sourceType, requirements[i].sourceId), digest);
        if state != CompleteTreatment { blockers := blockers + [TreatmentBlocker(requirements[i], state)]; }
      }
      assert requirements[..|requirements|] == requirements;
    }

    method UpsertRiskTreatment(s: Submission, newId: string, now: int) returns (r: Result<RiskTreatment, TreatmentError>)
      modifies this
      ensures match Upsert(old(ctx), s, newId, now)
              case Err(e) => r == Err(e) && ctx == old(ctx)
              case Ok(next) => ctx == next && r.Ok? && r.value in next.treatments
    {
      var problem := CheckSubmission(ctx, s);
      if problem.Some? { return Err(problem.value); }
      var digest := CurrentDigest(ctx);
      var existing := LatestIndex(ctx.treatments, s.sourceType, s.sourceId);
      if existing.None? {
        var t := NewTreatment(newId, s, digest, now);
        ctx := ctx.(treatments := ctx.treatments + [t]);
        return Ok(t);
      }
      var t := ctx.treatments[existing.value];
      var contentChanged := !SameContent(t, s);
      var digestChanged := t.digest != digest;
      t := t.(owner := Strip(s.owner), plan := Strip(s.plan), status := s.status.value, reviewNote := s.note,
              digest := digest, updatedBy := s.actor, updatedAt := now);
      if contentChanged || digestChanged { t := t.(reviewedBy := "", reviewedAt := None); }
      ctx := ctx.(treatments := ctx.treatments[existing.value := t]);
      assert ctx.treatments[existing.value] == t;
      r := Ok(t);
    }

    method ReviewRiskTreatment(request: ReviewRequest, now: int) returns (r: Result<RiskTreatment, TreatmentError>)
      modifies this
      ensures match Review(old(ctx), request, now)
              case Err(e) => r == Err(e) && ctx == old(ctx)
              case Ok(next) => ctx == next && r == Ok(next.treatments[FindTreatment(old(ctx).treatments, request.id)])
    {
      var problem := CheckReview(ctx, request);
      if problem.Some? { return Err(problem.value); }
      var i := FindTreatment(ctx.treatments, request.id);
      var t := Reviewed(ctx.treatments[i], request, now);
      ctx := ctx.(treatments := ctx.treatments[i := t]);
      r := Ok(t);
    }
  }
}
