/**
  The evaluation version: monotone counters plus a digest of the critical content. Because the counters
  only grow, a content that is changed and changed back never gets its old digest again.
 */
module EvaluationVersion {
  import opened Prelude
  import opened Models
  import opened Lineage
  import opened ReleaseModels

  // ----- the digest ---------------------------------------------------------

  function CaseDigestOf(c: EvalCase): CaseDigest
  {
    CaseDigest(c.evalId, c.stageId, c.targetNodeId, c.scenario, c.input, c.expected, c.criteria,
               multiset(c.failureModes), c.standardVersion)
  }

  function FailureModeEntries(modes: seq<FailureMode>): seq<FailureModeEntry>
  {
    seq(|modes|, i requires 0 <= i < |modes| =>
      FailureModeEntry(modes[i].id, modes[i].severity, modes[i].category, multiset(modes[i].evidenceIds)))
  }

  function NodeEntries(nodes: seq<WorkflowNode>): seq<NodeEntry>
  {
    seq(|nodes|, i requires 0 <= i < |nodes| =>
      NodeEntry(nodes[i].nodeId, nodes[i].stageName, nodes[i].model, nodes[i].prompt))
  }

  /** Stable insertion in the order of the eval ids. */
  function InsertCase(c: EvalCase, sorted: seq<EvalCase>): seq<EvalCase>
  {
    if sorted == [] || TextLe(c.evalId, sorted[0].evalId) then [c] + sorted
    else [sorted[0]] + InsertCase(c, sorted[1..])
  }

  function SortCases(cases: seq<EvalCase>): seq<EvalCase>
  {
    if cases == [] then [] else InsertCase(cases[0], SortCases(cases[1..]))
  }

  function CaseEntries(sorted: seq<EvalCase>): seq<(string, CaseDigest)>
  {
    seq(|sorted|, i requires 0 <= i < |sorted| => (sorted[i].evalId, CaseDigestOf(sorted[i])))
  }

  function StageVersions(versions: map<Stage, int>): map<Stage, int>
  {
    map k: Stage | 1 <= k <= 4 :: CurrentVersion(versions, k)
  }

  function ContentOf(ctx: ReleaseContext): CriticalContent
  {
    CriticalContent(
      ctx.inputs, ctx.materials, ctx.inputVersions, ctx.deployment, ctx.policy, ctx.risk.digest,
      CaseEntries(SortCases(ctx.cases)),
      if ctx.stage1.Some? then FailureModeEntries(ctx.stage1.value) else [],
      if ctx.stage2.Some? then NodeEntries(ctx.stage2.value) else [],
      if ctx.stage3.Some? then ctx.stage3.value else [],
      if ctx.stage4.Some? then ctx.stage4.value else [])
  }

  function CurrentDigest(ctx: ReleaseContext): VersionDigest
  {
    Digest(StageVersions(ctx.versions), ctx.inputVersions, ContentOf(ctx))
  }

  // ----- what changes a version -----------------------------------------------

  function BumpInput(versions: map<string, int>, key: string): map<string, int>
  {
    versions[key := (if key in versions then versions[key] else 0) + 1]
  }

  /** The fields a caller asks to replace in one test definition. */
  datatype StandardUpdate = StandardUpdate(
    targetNodeId: Option<Option<string>>, input: Option<string>, expected: Option<string>,
    criteria: Option<seq<string>>, scenario: Option<string>, failureModes: Option<seq<string>>)

  datatype StandardError = NoField | CaseNotFound

  function Or<T>(o: Option<T>, current: T): T
  {
    match o case None => current case Some(v) => v
  }

  predicate NothingAsked(u: StandardUpdate)
  {
    u.targetNodeId.None? && u.input.None? && u.expected.None? && u.criteria.None? && u.scenario.None? &&
    u.failureModes.None?
  }

  function ReplaceFields(c: EvalCase, u: StandardUpdate): EvalCase
  {
    c.(targetNodeId := Or(u.targetNodeId, c.targetNodeId), input := Or(u.input, c.input),
       expected := Or(u.expected, c.expected), criteria := Or(u.criteria, c.criteria),
       scenario := Or(u.scenario, c.scenario), failureModes := Or(u.failureModes, c.failureModes))
  }

  function UpdateCase(c: EvalCase, u: StandardUpdate): EvalCase
  {
    var replaced := ReplaceFields(c, u);
    if replaced == c then c else replaced.(standardVersion := c.standardVersion + 1)
  }

  /** Index of the first case with this id, or the length when there is none. */
  function FindCase(cases: seq<EvalCase>, evalId: string): (i: nat)
    ensures i <= |cases|
    ensures i < |cases| ==> cases[i].evalId == evalId
    ensures forall j :: 0 <= j < i ==> cases[j].evalId != evalId
  {
    FirstIndex(cases, (c: EvalCase) => c.evalId == evalId)
  }

  function UpdateStandard(ctx: ReleaseContext, evalId: string, u: StandardUpdate): Result<ReleaseContext, StandardError>
  {
    if NothingAsked(u) then Err(NoField)
    else
      var i := FindCase(ctx.cases, evalId);
      if i == |ctx.cases| then Err(CaseNotFound)
      else Ok(ctx.(cases := ctx.cases[i := UpdateCase(ctx.cases[i], u)]))
  }

  /**
    An update of a test definition is refused exactly if it asks for nothing or the case is unknown; else the first case of
    the identifier has each field that was asked for, the others as before, and a new version exactly if something changed.
   */
  lemma StandardUpdateLeadsTo(ctx: ReleaseContext, evalId: string, u: StandardUpdate)
    ensures var i, r := FindCase(ctx.cases, evalId), UpdateStandard(ctx, evalId, u);
      var asked := u.targetNodeId.Some? || u.input.Some? || u.expected.Some? || u.criteria.Some? || u.scenario.Some? ||
                   u.failureModes.Some?;
      && (r == Err(NoField) <==> !asked) && (r == Err(CaseNotFound) <==> asked && i == |ctx.cases|)
      && (r.Ok? ==>
            var next := r.value;
            && i < |ctx.cases| && next == ctx.(cases := next.cases) && |next.cases| == |ctx.cases|
            && (forall j :: 0 <= j < |ctx.cases| && j != i ==> next.cases[j] == ctx.cases[j])
            && var before, c := ctx.cases[i], next.cases[i];
               && (u.targetNodeId.Some? ==> c.targetNodeId == u.targetNodeId.value) && (u.input.Some? ==> c.input == u.input.value)
               && (u.expected.Some? ==> c.expected == u.expected.value) && (u.criteria.Some? ==> c.criteria == u.criteria.value)
               && (u.scenario.Some? ==> c.scenario == u.scenario.value)
               && (u.failureModes.Some? ==> c.failureModes == u.failureModes.value)
               && (u.targetNodeId.None? ==> c.targetNodeId == before.targetNodeId) && (u.input.None? ==> c.input == before.input)
               && (u.expected.None? ==> c.expected == before.expected) && (u.criteria.None? ==> c.criteria == before.criteria)
               && (u.scenario.None? ==> c.scenario == before.scenario)
               && (u.failureModes.None? ==> c.failureModes == before.failureModes)
               && c.evalId == before.evalId && c.stageId == before.stageId && c.passed == before.passed
               && c.humanScore == before.humanScore && c.actualOutput == before.actualOutput
               && c.standardVersion == before.standardVersion +
                    (if c.(standardVersion := 0) == before.(standardVersion := 0) then 0 else 1))
  {
  }

  /** What the services do to a session, as far as versions go. `next` carries arbitrary new content. */
  datatype VersionStep =
    | StageCommitted(stage: Stage, next: ReleaseContext)
    | InputChanged(key: string, next: ReleaseContext)
    | StandardUpdated(evalId: string, update: StandardUpdate)
    | CasesAdded(added: seq<EvalCase>)
    | CaseScored(evalId: string, passed: Option<bool>, score: Option<int>, output: Option<string>)
    | UncountedChange(next: ReleaseContext)

  function ApplyVersion(ctx: ReleaseContext, s: VersionStep): ReleaseContext
  {
    match s
    case StageCommitted(stage, next) =>
      next.(versions := BumpVersion(ctx.versions, stage), inputVersions := ctx.inputVersions, cases := ctx.cases)
    case InputChanged(key, next) =>
      next.(versions := ctx.versions, inputVersions := BumpInput(ctx.inputVersions, key), cases := ctx.cases)
    case StandardUpdated(evalId, update) =>
      (match UpdateStandard(ctx, evalId, update) case Ok(updated) => updated case Err(_) => ctx)
    case CasesAdded(added) => ctx.(cases := ctx.cases + added)
    case CaseScored(evalId, passed, score, output) =>
      var i := FindCase(ctx.cases, evalId);
      if i == |ctx.cases| then ctx
      else ctx.(cases := ctx.cases[i := ctx.cases[i].(passed := passed, humanScore := score, actualOutput := output)])
    case UncountedChange(next) =>
      next.(versions := ctx.versions, inputVersions := ctx.inputVersions, cases := ctx.cases)
  }

  function ApplyVersions(ctx: ReleaseContext, steps: seq<VersionStep>): ReleaseContext
    decreases |steps|
  {
    if steps == [] then ctx else ApplyVersions(ApplyVersion(ctx, steps[0]), steps[1..])
  }

  /**
    The step moves a counter the digest can see: a stage that was counted before, any input, a standard
    that actually changes, or at least one new case.
   */
  predicate IsCounted(ctx: ReleaseContext, s: VersionStep)
  {
    match s
    case StageCommitted(stage, _) => stage in ctx.versions
    case InputChanged(_, _) => true
    case StandardUpdated(evalId, update) =>
      UpdateStandard(ctx, evalId, update).Ok? && UpdateStandard(ctx, evalId, update).value != ctx
    case CasesAdded(added) => added != []
    case _ => false
  }

  // ----- the counters only grow -------------------------------------------------

  function SumVersions(cases: seq<EvalCase>): int
  {
    if cases == [] then 0 else cases[0].standardVersion + SumVersions(cases[1..])
  }

  function SumEntries(entries: seq<(string, CaseDigest)>): int
  {
    if entries == [] then 0
    else (match entries[0].1 case NoCase => 0 case CaseDigest(_, _, _, _, _, _, _, _, v) => v) + SumEntries(entries[1..])
  }

  lemma {:induction false} InsertKeepsTotals(c: EvalCase, sorted: seq<EvalCase>)
    ensures |InsertCase(c, sorted)| == |sorted| + 1
    ensures SumVersions(InsertCase(c, sorted)) == c.standardVersion + SumVersions(sorted)
  {
    if sorted == [] || TextLe(c.evalId, sorted[0].evalId) {
      assert ([c] + sorted)[1..] == sorted;
    } else {
      InsertKeepsTotals(c, sorted[1..]);
      assert ([sorted[0]] + InsertCase(c, sorted[1..]))[1..] == InsertCase(c, sorted[1..]);
    }
  }

  lemma {:induction false} SortKeepsTotals(cases: seq<EvalCase>)
    ensures |SortCases(cases)| == |cases| && SumVersions(SortCases(cases)) == SumVersions(cases)
  {
    if cases != [] {
      SortKeepsTotals(cases[1..]);
      InsertKeepsTotals(cases[0], SortCases(cases[1..]));
    }
  }

  lemma {:induction false} EntriesSum(sorted: seq<EvalCase>)
    ensures SumEntries(CaseEntries(sorted)) == SumVersions(sorted)
  {
    if sorted != [] {
      EntriesSum(sorted[1..]);
      assert CaseEntries(sorted)[1..] == CaseEntries(sorted[1..]);
    }
  }

  /** Equal digests agree on every counter. */
  lemma EqualDigestsAgreeOnCounters(a: ReleaseContext, b: ReleaseContext)
    requires CurrentDigest(a) == CurrentDigest(b)
    ensures forall k: Stage :: CurrentVersion(a.versions, k) == CurrentVersion(b.versions, k)
    ensures a.inputVersions == b.inputVersions
    ensures |a.cases| == |b.cases| && SumVersions(a.cases) == SumVersions(b.cases)
  {
    forall k: Stage ensures CurrentVersion(a.versions, k) == CurrentVersion(b.versions, k) {
      assert StageVersions(a.versions)[k] == StageVersions(b.versions)[k];
    }
    SortKeepsTotals(a.cases);
    SortKeepsTotals(b.cases);
    EntriesSum(SortCases(a.cases));
    EntriesSum(SortCases(b.cases));
    assert CaseEntries(SortCases(a.cases)) == CaseEntries(SortCases(b.cases));
  }

  /** No counter of `a` exceeds the same counter of `b`. */
  ghost predicate NoLater(a: ReleaseContext, b: ReleaseContext)
  {
    && (forall k: Stage :: CurrentVersion(a.versions, k) <= CurrentVersion(b.versions, k))
    && (forall key :: key in a.inputVersions ==> key in b.inputVersions && a.inputVersions[key] <= b.inputVersions[key])
    && |a.cases| <= |b.cases|
    && (|a.cases| == |b.cases| ==> SumVersions(a.cases) <= SumVersions(b.cases))
    && (forall k: Stage :: k in a.versions ==> k in b.versions)
  }

  /** Some counter moved. */
  ghost predicate Earlier(a: ReleaseContext, b: ReleaseContext)
  {
    NoLater(a, b) &&
    (|| (exists k: Stage :: CurrentVersion(a.versions, k) < CurrentVersion(b.versions, k))
     || (exists key :: key in b.inputVersions && (key in a.inputVersions ==> a.inputVersions[key] < b.inputVersions[key]))
     || |a.cases| < |b.cases|
     || SumVersions(a.cases) < SumVersions(b.cases))
  }

  lemma EarlierDigestsDiffer(a: ReleaseContext, b: ReleaseContext)
    requires Earlier(a, b)
    ensures CurrentDigest(a) != CurrentDigest(b)
  {
    if CurrentDigest(a) == CurrentDigest(b) { EqualDigestsAgreeOnCounters(a, b); }
  }

  lemma {:induction false} SumAfterUpdate(cases: seq<EvalCase>, i: nat, c: EvalCase)
    requires i < |cases|
    ensures SumVersions(cases[i := c]) == SumVersions(cases) - cases[i].standardVersion + c.standardVersion
  {
    if i == 0 {
      assert cases[i := c][1..] == cases[1..];
    } else {
      SumAfterUpdate(cases[1..], i - 1, c);
      assert cases[i := c][1..] == cases[1..][i - 1 := c];
    }
  }

  lemma ReplacingOneCase(ctx: ReleaseContext, i: nat, c: EvalCase)
    requires i < |ctx.cases| && ctx.cases[i].standardVersion <= c.standardVersion
    ensures NoLater(ctx, ctx.(cases := ctx.cases[i := c]))
    ensures ctx.cases[i].standardVersion < c.standardVersion ==> Earlier(ctx, ctx.(cases := ctx.cases[i := c]))
  {
    SumAfterUpdate(ctx.cases, i, c);
  }

  lemma StepsNeverLowerACounter(ctx: ReleaseContext, s: VersionStep)
    ensures NoLater(ctx, ApplyVersion(ctx, s))
    ensures IsCounted(ctx, s) ==> Earlier(ctx, ApplyVersion(ctx, s))
  {
    match s
    case StageCommitted(stage, next) =>
      BumpIsVisibleIffCounted(ctx.versions, stage, stage);
    case InputChanged(key, next) =>
      assert key in ApplyVersion(ctx, s).inputVersions;
    case StandardUpdated(evalId, update) =>
      var i := FindCase(ctx.cases, evalId);
      if i < |ctx.cases| {
        ReplacingOneCase(ctx, i, UpdateCase(ctx.cases[i], update));
        if UpdateCase(ctx.cases[i], update) == ctx.cases[i] {
          assert ctx.cases[i := ctx.cases[i]] == ctx.cases;
        }
      }
    case CasesAdded(added) =>
      if added == [] { assert ctx.cases + added == ctx.cases; }
    case CaseScored(evalId, passed, score, output) =>
      var i := FindCase(ctx.cases, evalId);
      if i < |ctx.cases| {
        ReplacingOneCase(ctx, i, ctx.cases[i].(passed := passed, humanScore := score, actualOutput := output));
      }
    case UncountedChange(next) =>
  }

  lemma {:induction false} RunsNeverLowerACounter(ctx: ReleaseContext, steps: seq<VersionStep>)
    ensures NoLater(ctx, ApplyVersions(ctx, steps))
    decreases |steps|
  {
    if steps != [] {
      StepsNeverLowerACounter(ctx, steps[0]);
      RunsNeverLowerACounter(ApplyVersion(ctx, steps[0]), steps[1..]);
    }
  }

  /** A counter that moved between two contexts still tells apart any earlier from any later one. */
  lemma MovedCounterStays(a: ReleaseContext, b: ReleaseContext, c: ReleaseContext, d: ReleaseContext)
    requires NoLater(a, b) && Earlier(b, c) && NoLater(c, d)
    ensures Earlier(a, d)
  {
    if k: Stage :| CurrentVersion(b.versions, k) < CurrentVersion(c.versions, k) {
      assert CurrentVersion(a.versions, k) < CurrentVersion(d.versions, k);
    } else if key :| key in c.inputVersions && (key in b.inputVersions ==> b.inputVersions[key] < c.inputVersions[key]) {
      assert key in d.inputVersions && (key in a.inputVersions ==> a.inputVersions[key] < d.inputVersions[key]);
    }
  }

  /**
    No revival: whatever happened before it, once a counted step has happened, no later run of any steps,
    whatever content they restore, brings back the digest of any earlier context.
   */
  lemma CountedStepIsNeverUndone(ctx: ReleaseContext, before: seq<VersionStep>, s: VersionStep, later: seq<VersionStep>)
    requires IsCounted(ApplyVersions(ctx, before), s)
    ensures CurrentDigest(ApplyVersions(ApplyVersion(ApplyVersions(ctx, before), s), later)) != CurrentDigest(ctx)
  {
    var b := ApplyVersions(ctx, before);
    var c := ApplyVersion(b, s);
    RunsNeverLowerACounter(ctx, before);
    StepsNeverLowerACounter(b, s);
    RunsNeverLowerACounter(c, later);
    MovedCounterStays(ctx, b, c, ApplyVersions(c, later));
    EarlierDigestsDiffer(ctx, ApplyVersions(c, later));
  }

  /**
    Regenerating a stage that was never counted is not visible: a session restored without a counter for
    that stage keeps its digest when the regenerated content is the same. So the guarantee holds for a stage
    commit exactly when the stage was counted before.
   */
  lemma StageCommitIsVisibleIffCounted(ctx: ReleaseContext, stage: Stage)
    ensures CurrentDigest(ApplyVersion(ctx, StageCommitted(stage, ctx))) != CurrentDigest(ctx) <==> stage in ctx.versions
  {
    var after := ApplyVersion(ctx, StageCommitted(stage, ctx));
    if stage in ctx.versions {
      CountedStepIsNeverUndone(ctx, [], StageCommitted(stage, ctx), []);
    } else {
      assert StageVersions(after.versions) == StageVersions(ctx.versions);
    }
  }

  /** Changing an input always gives a new version, whatever else is restored with it. */
  lemma InputChangeIsVisible(ctx: ReleaseContext, key: string, next: ReleaseContext)
    ensures CurrentDigest(ApplyVersion(ctx, InputChanged(key, next))) != CurrentDigest(ctx)
  {
    CountedStepIsNeverUndone(ctx, [], InputChanged(key, next), []);
  }

  // ----- what a version covers ---------------------------------------------------------

  /** The definitions listed under an identifier, in their order. */
  function DefinitionsOf(cases: seq<EvalCase>, id: string): seq<CaseDigest>
  {
    Map(Filter(cases, (c: EvalCase) => c.evalId == id), CaseDigestOf)
  }

  /** Under each identifier the same definitions in the same order. */
  ghost predicate SameDefinitions(a: seq<EvalCase>, b: seq<EvalCase>)
  {
    forall id :: DefinitionsOf(a, id) == DefinitionsOf(b, id)
  }

  ghost predicate Ascending(cases: seq<EvalCase>)
  {
    forall i, j :: 0 <= i < j < |cases| ==> TextLe(cases[i].evalId, cases[j].evalId)
  }

  lemma {:induction false} InsertedCaseMembers(c: EvalCase, sorted: seq<EvalCase>, x: EvalCase)
    ensures x in InsertCase(c, sorted) <==> x == c || x in sorted
  {
    if sorted != [] && !TextLe(c.evalId, sorted[0].evalId) {
      InsertedCaseMembers(c, sorted[1..], x);
      assert sorted == [sorted[0]] + sorted[1..];
    }
  }

  lemma {:induction false} InsertKeepsAscending(c: EvalCase, sorted: seq<EvalCase>)
    requires Ascending(sorted)
    ensures Ascending(InsertCase(c, sorted))
  {
    if sorted != [] {
      TextLeTotal(c.evalId, sorted[0].evalId);
      if TextLe(c.evalId, sorted[0].evalId) {
        forall j | 0 < j < |sorted| ensures TextLe(c.evalId, sorted[j].evalId) {
          TextLeTransitive(c.evalId, sorted[0].evalId, sorted[j].evalId);
        }
      } else {
        InsertKeepsAscending(c, sorted[1..]);
        forall x | x in InsertCase(c, sorted[1..]) ensures TextLe(sorted[0].evalId, x.evalId) {
          InsertedCaseMembers(c, sorted[1..], x);
        }
      }
    }
  }

  lemma DefinitionsWithFirst(c: EvalCase, rest: seq<EvalCase>, id: string)
    ensures DefinitionsOf([c] + rest, id) ==
      if c.evalId == id then [CaseDigestOf(c)] + DefinitionsOf(rest, id) else DefinitionsOf(rest, id)
  {
    assert ([c] + rest)[1..] == rest;
  }

  lemma {:induction false} InsertKeepsDefinitions(c: EvalCase, sorted: seq<EvalCase>, id: string)
    ensures DefinitionsOf(InsertCase(c, sorted), id) == DefinitionsOf([c] + sorted, id)
  {
    if sorted != [] && !TextLe(c.evalId, sorted[0].evalId) {
      TextLeTotal(c.evalId, c.evalId);
      InsertKeepsDefinitions(c, sorted[1..], id);
      assert sorted == [sorted[0]] + sorted[1..];
      DefinitionsWithFirst(c, sorted, id);
      DefinitionsWithFirst(c, sorted[1..], id);
      DefinitionsWithFirst(sorted[0], sorted[1..], id);
      DefinitionsWithFirst(sorted[0], InsertCase(c, sorted[1..]), id);
    }
  }

  /** The cases are listed by identifier, those that share one in the order in which they were added. */
  lemma {:induction false} SortCasesIsStable(cases: seq<EvalCase>)
    ensures Ascending(SortCases(cases)) && SameDefinitions(SortCases(cases), cases)
  {
    if cases != [] {
      SortCasesIsStable(cases[1..]);
      InsertKeepsAscending(cases[0], SortCases(cases[1..]));
      assert cases == [cases[0]] + cases[1..];
      forall id: string ensures DefinitionsOf(SortCases(cases), id) == DefinitionsOf(cases, id) {
        InsertKeepsDefinitions(cases[0], SortCases(cases[1..]), id);
        DefinitionsWithFirst(cases[0], SortCases(cases[1..]), id);
        DefinitionsWithFirst(cases[0], cases[1..], id);
      }
    }
  }

  lemma {:induction false} DefinedIffListed(cases: seq<EvalCase>, id: string)
    ensures DefinitionsOf(cases, id) != [] <==> exists c :: c in cases && c.evalId == id
  {
    EmptyIffNone(cases, (c: EvalCase) => c.evalId == id);
  }

  lemma FirstIsLeast(a: seq<EvalCase>, b: seq<EvalCase>)
    requires a != [] && Ascending(b) && DefinitionsOf(b, a[0].evalId) != []
    ensures b != [] && TextLe(b[0].evalId, a[0].evalId)
  {
    DefinedIffListed(b, a[0].evalId);
    TextLeTotal(a[0].evalId, a[0].evalId);
  }

  lemma FirstsAgree(a: seq<EvalCase>, b: seq<EvalCase>)
    requires a != [] && Ascending(a) && Ascending(b) && SameDefinitions(a, b)
    ensures b != [] && a[0].evalId == b[0].evalId && CaseDigestOf(a[0]) == CaseDigestOf(b[0])
  {
    DefinedIffListed(a, a[0].evalId);
    FirstIsLeast(a, b);
    DefinedIffListed(b, b[0].evalId);
    FirstIsLeast(b, a);
    TextLeAntisymmetric(a[0].evalId, b[0].evalId);
    TailsAgree(a, b, a[0].evalId);
  }

  /** A list in that order is determined by the definitions under each identifier. */
  lemma {:induction false} AscendingListsAgree(a: seq<EvalCase>, b: seq<EvalCase>)
    requires Ascending(a) && Ascending(b) && SameDefinitions(a, b)
    ensures Map(a, CaseDigestOf) == Map(b, CaseDigestOf)
  {
    if a == [] {
      if b != [] { DefinedIffListed(b, b[0].evalId); }
    } else {
      FirstsAgree(a, b);
      forall id: string ensures DefinitionsOf(a[1..], id) == DefinitionsOf(b[1..], id) { TailsAgree(a, b, id); }
      AscendingListsAgree(a[1..], b[1..]);
      assert Map(a, CaseDigestOf) == [CaseDigestOf(a[0])] + Map(a[1..], CaseDigestOf);
      assert Map(b, CaseDigestOf) == [CaseDigestOf(b[0])] + Map(b[1..], CaseDigestOf);
    }
  }

  lemma TailsAgree(a: seq<EvalCase>, b: seq<EvalCase>, id: string)
    requires a != [] && b != [] && a[0].evalId == b[0].evalId && DefinitionsOf(a, id) == DefinitionsOf(b, id)
    ensures DefinitionsOf(a[1..], id) == DefinitionsOf(b[1..], id)
    ensures id == a[0].evalId ==> CaseDigestOf(a[0]) == CaseDigestOf(b[0])
  {
    assert a == [a[0]] + a[1..] && b == [b[0]] + b[1..];
    DefinitionsWithFirst(a[0], a[1..], id);
    DefinitionsWithFirst(b[0], b[1..], id);
    if id == a[0].evalId {
      FirstAndRest(CaseDigestOf(a[0]), DefinitionsOf(a[1..], id), CaseDigestOf(b[0]), DefinitionsOf(b[1..], id));
    }
  }

  lemma FirstAndRest<T>(x: T, xs: seq<T>, y: T, ys: seq<T>)
    requires [x] + xs == [y] + ys
    ensures x == y && xs == ys
  {
    assert ([x] + xs)[0] == x && ([y] + ys)[0] == y;
    assert ([x] + xs)[1..] == xs && ([y] + ys)[1..] == ys;
  }

  lemma {:induction false} AgreeingListsDefineAlike(a: seq<EvalCase>, b: seq<EvalCase>, id: string)
    requires Map(a, CaseDigestOf) == Map(b, CaseDigestOf)
    ensures DefinitionsOf(a, id) == DefinitionsOf(b, id)
  {
    assert |a| == |Map(b, CaseDigestOf)|;
    if a != [] {
      assert Map(a, CaseDigestOf)[0] == Map(b, CaseDigestOf)[0];
      assert Map(a[1..], CaseDigestOf) == Map(a, CaseDigestOf)[1..] && Map(b[1..], CaseDigestOf) == Map(b, CaseDigestOf)[1..];
      AgreeingListsDefineAlike(a[1..], b[1..], id);
      assert a == [a[0]] + a[1..] && b == [b[0]] + b[1..];
      DefinitionsWithFirst(a[0], a[1..], id);
      DefinitionsWithFirst(b[0], b[1..], id);
    }
  }

  lemma EntriesEqualIff(a: seq<EvalCase>, b: seq<EvalCase>)
    ensures CaseEntries(SortCases(a)) == CaseEntries(SortCases(b)) <==> SameDefinitions(a, b)
  {
    var x, y := SortCases(a), SortCases(b);
    SortCasesIsStable(a);
    SortCasesIsStable(b);
    if SameDefinitions(a, b) {
      AscendingListsAgree(x, y);
      assert |x| == |Map(y, CaseDigestOf)|;
      forall i | 0 <= i < |x| ensures CaseEntries(x)[i] == CaseEntries(y)[i] {
        assert Map(x, CaseDigestOf)[i] == Map(y, CaseDigestOf)[i];
      }
    }
    if CaseEntries(x) == CaseEntries(y) {
      assert |x| == |CaseEntries(y)|;
      forall i | 0 <= i < |x| ensures CaseDigestOf(x[i]) == CaseDigestOf(y[i]) { assert CaseEntries(x)[i] == CaseEntries(y)[i]; }
      assert Map(x, CaseDigestOf) == Map(y, CaseDigestOf);
      forall id: string ensures DefinitionsOf(a, id) == DefinitionsOf(b, id) { AgreeingListsDefineAlike(x, y, id); }
    }
  }

  /** Two cases define the same: they may differ in outcomes and in the order of their failure modes alone. */
  lemma DefineAlikeIff(c: EvalCase, d: EvalCase)
    ensures CaseDigestOf(c) == CaseDigestOf(d) <==>
      && multiset(c.failureModes) == multiset(d.failureModes)
      && c.(passed := None, humanScore := None, actualOutput := None, failureModes := []) ==
         d.(passed := None, humanScore := None, actualOutput := None, failureModes := [])
  {
  }

  /** The same modes by identifier, severity, category and evidence, the evidence in any order. */
  ghost predicate SameModes(a: seq<FailureMode>, b: seq<FailureMode>)
  {
    |a| == |b| && forall i :: 0 <= i < |a| ==>
      a[i].(evidenceIds := []) == b[i].(evidenceIds := []) && multiset(a[i].evidenceIds) == multiset(b[i].evidenceIds)
  }

  /** The same nodes but for the failure modes they address. */
  ghost predicate SameNodes(a: seq<WorkflowNode>, b: seq<WorkflowNode>)
  {
    |a| == |b| && forall i :: 0 <= i < |a| ==> a[i].(failureModes := []) == b[i].(failureModes := [])
  }

  lemma ModesEqualIff(a: seq<FailureMode>, b: seq<FailureMode>)
    ensures FailureModeEntries(a) == FailureModeEntries(b) <==> SameModes(a, b)
  {
    if FailureModeEntries(a) == FailureModeEntries(b) {
      assert |a| == |FailureModeEntries(b)|;
      forall i | 0 <= i < |a|
        ensures a[i].(evidenceIds := []) == b[i].(evidenceIds := []) && multiset(a[i].evidenceIds) == multiset(b[i].evidenceIds)
      {
        assert FailureModeEntries(a)[i] == FailureModeEntries(b)[i];
      }
    }
    if SameModes(a, b) {
      forall i | 0 <= i < |a| ensures FailureModeEntries(a)[i] == FailureModeEntries(b)[i] {
        assert a[i].(evidenceIds := []) == b[i].(evidenceIds := []);
        assert a[i].(evidenceIds := []).id == a[i].id && b[i].(evidenceIds := []).id == b[i].id;
      }
    }
  }

  lemma NodesEqualIff(a: seq<WorkflowNode>, b: seq<WorkflowNode>)
    ensures NodeEntries(a) == NodeEntries(b) <==> SameNodes(a, b)
  {
    if NodeEntries(a) == NodeEntries(b) {
      assert |a| == |NodeEntries(b)|;
      forall i | 0 <= i < |a| ensures a[i].(failureModes := []) == b[i].(failureModes := []) {
        assert NodeEntries(a)[i] == NodeEntries(b)[i];
      }
    }
    if SameNodes(a, b) {
      forall i | 0 <= i < |a| ensures NodeEntries(a)[i] == NodeEntries(b)[i] {
        assert a[i].(failureModes := []) == b[i].(failureModes := []);
        assert a[i].(failureModes := []).nodeId == a[i].nodeId && b[i].(failureModes := []).nodeId == b[i].nodeId;
      }
    }
  }

  function OrNothing<T>(output: Option<seq<T>>): seq<T> { if output.Some? then output.value else [] }

  /** The critical content of two sessions is the same; no output counts as an empty one. */
  ghost predicate SameCriticalContent(a: ReleaseContext, b: ReleaseContext)
  {
    && a.inputs == b.inputs && a.materials == b.materials && a.deployment == b.deployment
    && a.policy == b.policy && a.risk.digest == b.risk.digest && SameDefinitions(a.cases, b.cases)
    && SameModes(OrNothing(a.stage1), OrNothing(b.stage1)) && SameNodes(OrNothing(a.stage2), OrNothing(b.stage2))
    && OrNothing(a.stage3) == OrNothing(b.stage3) && OrNothing(a.stage4) == OrNothing(b.stage4)
  }

  /** Two sessions have the same evaluation version exactly if their counters and their critical content are the same. */
  lemma DigestsAreEqualIff(a: ReleaseContext, b: ReleaseContext)
    ensures CurrentDigest(a) == CurrentDigest(b) <==>
      && (forall k: Stage :: CurrentVersion(a.versions, k) == CurrentVersion(b.versions, k))
      && a.inputVersions == b.inputVersions && SameCriticalContent(a, b)
  {
    EntriesEqualIff(a.cases, b.cases);
    ModesEqualIff(OrNothing(a.stage1), OrNothing(b.stage1));
    NodesEqualIff(OrNothing(a.stage2), OrNothing(b.stage2));
    VersionsEqualIff(a.versions, b.versions);
  }

  lemma VersionsEqualIff(a: map<Stage, int>, b: map<Stage, int>)
    ensures StageVersions(a) == StageVersions(b) <==> forall k: Stage :: CurrentVersion(a, k) == CurrentVersion(b, k)
  {
    if StageVersions(a) == StageVersions(b) {
      forall k: Stage ensures CurrentVersion(a, k) == CurrentVersion(b, k) {
        assert StageVersions(a)[k] == StageVersions(b)[k];
      }
    }
  }

  // ----- what does not change a version --------------------------------------------

  lemma {:induction false} SortSeesOnlyDefinitions(a: seq<EvalCase>, b: seq<EvalCase>)
    requires |a| == |b| && forall i :: 0 <= i < |a| ==> CaseDigestOf(a[i]) == CaseDigestOf(b[i])
    ensures |SortCases(a)| == |SortCases(b)|
    ensures forall i :: 0 <= i < |SortCases(a)| ==> CaseDigestOf(SortCases(a)[i]) == CaseDigestOf(SortCases(b)[i])
  {
    if a != [] {
      SortSeesOnlyDefinitions(a[1..], b[1..]);
      InsertSeesOnlyDefinitions(a[0], b[0], SortCases(a[1..]), SortCases(b[1..]));
    }
  }

  lemma {:induction false} InsertSeesOnlyDefinitions(c: EvalCase, d: EvalCase, a: seq<EvalCase>, b: seq<EvalCase>)
    requires CaseDigestOf(c) == CaseDigestOf(d)
    requires |a| == |b| && forall i :: 0 <= i < |a| ==> CaseDigestOf(a[i]) == CaseDigestOf(b[i])
    ensures |InsertCase(c, a)| == |InsertCase(d, b)|
    ensures forall i :: 0 <= i < |InsertCase(c, a)| ==>
      CaseDigestOf(InsertCase(c, a)[i]) == CaseDigestOf(InsertCase(d, b)[i])
  {
    if a != [] {
      assert CaseDigestOf(a[0]) == CaseDigestOf(b[0]);
      if !TextLe(c.evalId, a[0].evalId) { InsertSeesOnlyDefinitions(c, d, a[1..], b[1..]); }
    }
  }

  lemma SameDefinitionsSameEntries(a: seq<EvalCase>, b: seq<EvalCase>)
    requires |a| == |b| && forall i :: 0 <= i < |a| ==> CaseDigestOf(a[i]) == CaseDigestOf(b[i])
    ensures CaseEntries(SortCases(a)) == CaseEntries(SortCases(b))
  {
    SortSeesOnlyDefinitions(a, b);
    var x, y := SortCases(a), SortCases(b);
    forall i | 0 <= i < |x| ensures CaseEntries(x)[i] == CaseEntries(y)[i] {
      assert CaseDigestOf(x[i]).evalId == CaseDigestOf(y[i]).evalId;
    }
  }

  /** Scoring a case records an outcome and leaves the evaluation version alone. */
  lemma ScoringKeepsTheDigest(ctx: ReleaseContext, evalId: string, passed: Option<bool>, score: Option<int>,
                              output: Option<string>)
    ensures CurrentDigest(ApplyVersion(ctx, CaseScored(evalId, passed, score, output))) == CurrentDigest(ctx)
  {
    var after := ApplyVersion(ctx, CaseScored(evalId, passed, score, output));
    SameDefinitionsSameEntries(after.cases, ctx.cases);
    SameEntriesSameDigest(ctx, after);
  }

  lemma SameEntriesSameDigest(ctx: ReleaseContext, after: ReleaseContext)
    requires after == ctx.(cases := after.cases)
    requires CaseEntries(SortCases(after.cases)) == CaseEntries(SortCases(ctx.cases))
    ensures CurrentDigest(after) == CurrentDigest(ctx)
  {
  }

  /** The two mutating services of this component. */
  class VersionedSession {
    var ctx: ReleaseContext

    constructor (ctx: ReleaseContext)
      ensures this.ctx == ctx
    {
      this.ctx := ctx;
    }

    method BumpInputVersion(key: string) returns (value: int)
      modifies this
      ensures ctx == old(ctx).(inputVersions := BumpInput(old(ctx).inputVersions, key))
      ensures value == ctx.inputVersions[key]
      ensures Earlier(old(ctx), ctx)
    {
      value := (if key in ctx.inputVersions then ctx.inputVersions[key] else 0) + 1;
      ctx := ctx.(inputVersions := ctx.inputVersions[key := value]);
      assert key in ctx.inputVersions;
    }

    /** Only an actual change of a test definition counts as a new standard version. */
    method UpdateEvalCaseStandard(evalId: string, update: StandardUpdate) returns (r: Result<EvalCase, StandardError>)
      modifies this
      ensures match UpdateStandard(old(ctx), evalId, update)
              case Err(e) => r == Err(e) && ctx == old(ctx)
              case Ok(updated) => ctx == updated && r == Ok(updated.cases[FindCase(old(ctx).cases, evalId)])
    {
      if NothingAsked(update) { return Err(NoField); }
      for i := 0 to |ctx.cases|
        invariant ctx == old(ctx)
        invariant forall j :: 0 <= j < i ==> ctx.cases[j].evalId != evalId
      {
        if ctx.cases[i].evalId == evalId {
          assert FindCase(ctx.cases, evalId) == i;
          var c := ctx.cases[i];
          var replaced := ReplaceFields(c, update);
          if replaced == c {
            assert ctx.cases[i := c] == ctx.cases;
            return Ok(c);
          }
          replaced := replaced.(standardVersion := c.standardVersion + 1);
          ctx := ctx.(cases := ctx.cases[i := replaced]);
          return Ok(replaced);
        }
      }
      r := Err(CaseNotFound);
    }
  }
}
