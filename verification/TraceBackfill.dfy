/**
  Trace backfill: failed traces become regression EvalCases grouped in a data set, and a separate summary says
  whether the gate may consider them covered. Building the data set itself appends traces.
 */
module TraceBackfill {
  import opened Prelude
  import opened EvalDatasets

  datatype Trace = Trace(
    id: string, parserStatus: string, safetyStatus: string, errorType: Option<string>, errorMessage: Option<string>)

  datatype TraceCase = TraceCase(evalId: string, source: Option<string>)

  datatype Dataset = Dataset(source: string, tags: seq<string>, caseIds: seq<string>)

  datatype Session = Session(traces: seq<Trace>, evals: seq<TraceCase>, datasets: seq<Dataset>)

  /** Identifiers of the traces and cases that are appended, by position. */
  datatype Supply = Supply(traceIds: nat -> string, evalIds: nat -> string)

  const TAG := "production_trace"

  // ----- which traces count ------------------------------------------------------------------

  function LowerChar(c: char): char
  {
    if 'A' <= c <= 'Z' then (c as int + 32) as char else c
  }

  function Lower(text: string): string
  {
    seq(|text|, i requires 0 <= i < |text| => LowerChar(text[i]))
  }

  predicate ParserFailed(status: string) { Lower(status) in ["failed", "error", "invalid"] }

  predicate SafetyOk(status: string) { Lower(status) in ["", "not_scanned", "passed", "ok", "clear", "safe"] }

  predicate IsGiven(text: Option<string>) { text.Some? && text.value != "" }

  predicate IsEligible(t: Trace)
  {
    IsGiven(t.errorType) || IsGiven(t.errorMessage) || ParserFailed(t.parserStatus) || !SafetyOk(t.safetyStatus)
  }

  /** The trace the service writes about its own work. */
  function OwnTrace(id: string): Trace
  {
    Trace(id, "not_applicable", "not_scanned", None, None)
  }

  lemma OwnTraceIsNotEligible(id: string)
    ensures !IsEligible(OwnTrace(id))
  {
    assert Lower("not_applicable") == "not_applicable";
    assert Lower("not_scanned") == "not_scanned";
  }

  function EligibleIds(traces: seq<Trace>): seq<string>
  {
    if traces == [] then []
    else EligibleIds(traces[..|traces| - 1]) + if IsEligible(traces[|traces| - 1]) then [traces[|traces| - 1].id] else []
  }

  function ListedIds(traces: seq<Trace>, wanted: seq<string>): seq<string>
  {
    if traces == [] then []
    else ListedIds(traces[..|traces| - 1], wanted) + if traces[|traces| - 1].id in wanted then [traces[|traces| - 1].id] else []
  }

  function SelectedIds(traces: seq<Trace>, wanted: Option<seq<string>>): seq<string>
  {
    match wanted case None => EligibleIds(traces) case Some(ids) => ListedIds(traces, ids)
  }

  lemma {:induction false} EligibleIdsAre(traces: seq<Trace>, id: string)
    ensures id in EligibleIds(traces) <==> exists t :: t in traces && IsEligible(t) && t.id == id
  {
    if traces != [] {
      EligibleIdsAre(traces[..|traces| - 1], id);
      assert traces == traces[..|traces| - 1] + [traces[|traces| - 1]];
    }
  }

  /** With explicit identifiers the traces that exist are taken, eligible or not. */
  lemma {:induction false} ListedIdsAre(traces: seq<Trace>, wanted: seq<string>, id: string)
    ensures id in ListedIds(traces, wanted) <==> id in wanted && HasTrace(traces, id)
  {
    if traces != [] {
      ListedIdsAre(traces[..|traces| - 1], wanted, id);
      assert forall t :: t in traces <==> t in traces[..|traces| - 1] || t == traces[|traces| - 1];
    }
  }

  predicate SameButForCase(a: string, b: string)
  {
    |a| == |b| && forall i :: 0 <= i < |a| ==> a[i] == b[i] || ('A' <= a[i] <= 'Z' && a[i] as int + 32 == b[i] as int)
  }

  lemma LowerIs(a: string, b: string)
    requires forall i :: 0 <= i < |b| ==> !('A' <= b[i] <= 'Z')
    ensures Lower(a) == b <==> SameButForCase(a, b)
  {
    if Lower(a) == b {
      assert |a| == |b|;
      forall i | 0 <= i < |a| ensures a[i] == b[i] || ('A' <= a[i] <= 'Z' && a[i] as int + 32 == b[i] as int) {
        assert Lower(a)[i] == b[i];
      }
    }
  }

  /** A trace is eligible exactly for an error, a parser that failed, or a safety status other than those that mean nothing wrong. */
  lemma EligibleIff(t: Trace)
    ensures IsEligible(t) <==>
      || t.errorType !in {None, Some("")} || t.errorMessage !in {None, Some("")}
      || SameButForCase(t.parserStatus, "failed") || SameButForCase(t.parserStatus, "error")
      || SameButForCase(t.parserStatus, "invalid")
      || !(SameButForCase(t.safetyStatus, "") || SameButForCase(t.safetyStatus, "not_scanned") ||
           SameButForCase(t.safetyStatus, "passed") || SameButForCase(t.safetyStatus, "ok") ||
           SameButForCase(t.safetyStatus, "clear") || SameButForCase(t.safetyStatus, "safe"))
  {
    LowerIs(t.parserStatus, "failed");
    LowerIs(t.parserStatus, "error");
    LowerIs(t.parserStatus, "invalid");
    LowerIs(t.safetyStatus, "");
    LowerIs(t.safetyStatus, "not_scanned");
    LowerIs(t.safetyStatus, "passed");
    LowerIs(t.safetyStatus, "ok");
    LowerIs(t.safetyStatus, "clear");
    LowerIs(t.safetyStatus, "safe");
  }

  lemma OwnTraceAddsNoEligible(traces: seq<Trace>, id: string)
    ensures EligibleIds(traces + [OwnTrace(id)]) == EligibleIds(traces)
  {
    OwnTraceIsNotEligible(id);
    assert (traces + [OwnTrace(id)])[..|traces|] == traces;
  }

  // ----- one trace -----------------------------------------------------------------------------

  function CaseIndex(evals: seq<TraceCase>, traceId: string): (i: nat)
    ensures i <= |evals|
    ensures i < |evals| ==> evals[i].source == Some(traceId)
    ensures forall j :: 0 <= j < i ==> evals[j].source != Some(traceId)
  {
    FirstIndex(evals, (c: TraceCase) => c.source == Some(traceId))
  }

  predicate HasTrace(traces: seq<Trace>, id: string)
  {
    exists t :: t in traces && t.id == id
  }

  /** Converting a trace that exists; the service refuses any other. */
  function Converted(s: Session, traceId: string, supply: Supply): Session
  {
    if CaseIndex(s.evals, traceId) < |s.evals| then s
    else s.(evals := s.evals + [TraceCase(supply.evalIds(|s.evals|), Some(traceId))],
            traces := s.traces + [OwnTrace(supply.traceIds(|s.traces|))])
  }

  function ConvertedAll(s: Session, ids: seq<string>, supply: Supply): Session
  {
    if ids == [] then s else Converted(ConvertedAll(s, ids[..|ids| - 1], supply), ids[|ids| - 1], supply)
  }

  function CountFrom(evals: seq<TraceCase>, traceId: string): nat
  {
    if evals == [] then 0
    else CountFrom(evals[..|evals| - 1], traceId) + if evals[|evals| - 1].source == Some(traceId) then 1 else 0
  }

  lemma {:induction false} CountIsPositiveIffCase(evals: seq<TraceCase>, traceId: string)
    ensures CountFrom(evals, traceId) > 0 <==> CaseIndex(evals, traceId) < |evals|
    ensures CaseIndex(evals, traceId) < |evals| <==> exists c :: c in evals && c.source == Some(traceId)
  {
    if evals != [] {
      var before, last := evals[..|evals| - 1], evals[|evals| - 1];
      CountIsPositiveIffCase(before, traceId);
      assert evals == before + [last];
    }
  }

  lemma ConvertedAddsOne(s: Session, id: string, supply: Supply, other: string)
    ensures var n := CountFrom(s.evals, other);
      CountFrom(Converted(s, id, supply).evals, other) == if other == id && n == 0 then 1 else n
    ensures s.evals <= Converted(s, id, supply).evals
    ensures EligibleIds(Converted(s, id, supply).traces) == EligibleIds(s.traces)
  {
    CountIsPositiveIffCase(s.evals, id);
    var after := Converted(s, id, supply);
    if after != s {
      assert after.evals[..|s.evals|] == s.evals;
      OwnTraceAddsNoEligible(s.traces, supply.traceIds(|s.traces|));
    }
  }

  /** A selected trace without a case gets exactly one; nothing else is added, and nothing new is eligible. */
  lemma {:induction false} ConvertingAddsOneEach(s: Session, ids: seq<string>, supply: Supply, other: string)
    ensures var n := CountFrom(s.evals, other);
      CountFrom(ConvertedAll(s, ids, supply).evals, other) == if other in ids && n == 0 then 1 else n
    ensures s.evals <= ConvertedAll(s, ids, supply).evals
    ensures EligibleIds(ConvertedAll(s, ids, supply).traces) == EligibleIds(s.traces)
    ensures ConvertedAll(s, ids, supply).datasets == s.datasets
  {
    if ids != [] {
      var before, last := ids[..|ids| - 1], ids[|ids| - 1];
      assert ids == before + [last];
      ConvertingAddsOneEach(s, before, supply, other);
      ConvertedAddsOne(ConvertedAll(s, before, supply), last, supply, other);
    }
  }

  /** Traces that already have a case are left alone. */
  lemma {:induction false} ConvertingCoveredTraces(s: Session, ids: seq<string>, supply: Supply)
    requires forall id :: id in ids ==> CaseIndex(s.evals, id) < |s.evals|
    ensures ConvertedAll(s, ids, supply) == s
  {
    if ids != [] { ConvertingCoveredTraces(s, ids[..|ids| - 1], supply); }
  }

  // ----- the data set ----------------------------------------------------------------------------

  /** The case of each selected trace, once all have one. */
  function CasesOf(evals: seq<TraceCase>, ids: seq<string>): seq<string>
    requires forall id :: id in ids ==> CaseIndex(evals, id) < |evals|
  {
    seq(|ids|, i requires 0 <= i < |ids| => evals[CaseIndex(evals, ids[i])].evalId)
  }

  datatype BackfillError = NothingToBackfill

  lemma AllHaveCases(s: Session, ids: seq<string>, supply: Supply)
    ensures forall id :: id in ids ==>
      CaseIndex(ConvertedAll(s, ids, supply).evals, id) < |ConvertedAll(s, ids, supply).evals|
  {
    forall id | id in ids
      ensures CaseIndex(ConvertedAll(s, ids, supply).evals, id) < |ConvertedAll(s, ids, supply).evals|
    {
      ConvertingAddsOneEach(s, ids, supply, id);
      CountIsPositiveIffCase(ConvertedAll(s, ids, supply).evals, id);
    }
  }

  function Tagged(caseIds: seq<string>): Dataset
  {
    Dataset(TAG, [TAG, "parser", "safety", "regression", "gate_required", "v0.8-alpha.8"], caseIds)
  }

  function Backfilled(s: Session, ids: seq<string>, supply: Supply): Session
  {
    AllHaveCases(s, ids, supply);
    var c := ConvertedAll(s, ids, supply);
    c.(datasets := c.datasets + [Tagged(Dedupe(CasesOf(c.evals, ids)))],
       traces := c.traces + [OwnTrace(supply.traceIds(|c.traces|))])
  }

  function CreateDataset(s: Session, wanted: Option<seq<string>>, supply: Supply): Result<Session, BackfillError>
  {
    var ids := SelectedIds(s.traces, wanted);
    if ids == [] then Err(NothingToBackfill) else Ok(Backfilled(s, ids, supply))
  }

  /** The case found for one of the traces. */
  predicate IsCaseOfOne(evals: seq<TraceCase>, ids: seq<string>, evalId: string)
  {
    exists id :: id in ids && CaseIndex(evals, id) < |evals| && evals[CaseIndex(evals, id)].evalId == evalId
  }

  /** The identifiers that are grouped: those of the cases of the selected traces, each once. */
  lemma GroupedAre(evals: seq<TraceCase>, ids: seq<string>, evalId: string)
    requires forall id :: id in ids ==> CaseIndex(evals, id) < |evals|
    ensures var grouped := Dedupe(CasesOf(evals, ids));
      && (evalId in grouped <==> evalId != "" && IsCaseOfOne(evals, ids, evalId))
      && (forall i, j :: 0 <= i < j < |grouped| ==> grouped[i] != grouped[j])
  {
    var cases := CasesOf(evals, ids);
    DedupeMembers(cases, evalId);
    DedupeIsDistinct(cases);
    if evalId in cases {
      var i :| 0 <= i < |cases| && cases[i] == evalId;
      assert ids[i] in ids;
    }
    if IsCaseOfOne(evals, ids, evalId) {
      var id :| id in ids && evals[CaseIndex(evals, id)].evalId == evalId;
      var i :| 0 <= i < |ids| && ids[i] == id;
      assert cases[i] == evalId;
    }
  }

  /** A backfill is refused exactly if no trace is selected; else it adds one data set of its cases, each once, and its own traces. */
  lemma BackfillLeadsTo(s: Session, wanted: Option<seq<string>>, supply: Supply, evalId: string)
    ensures var ids := SelectedIds(s.traces, wanted);
      && (CreateDataset(s, wanted, supply).Err? <==> ids == [])
      && (ids != [] ==>
            var after := CreateDataset(s, wanted, supply).value;
            && |after.datasets| == |s.datasets| + 1 && s.datasets <= after.datasets && s.evals <= after.evals
            && var made := after.datasets[|s.datasets|];
               && made.source == "production_trace" && "gate_required" in made.tags
               && (evalId in made.caseIds <==> evalId != "" && IsCaseOfOne(after.evals, ids, evalId))
               && (forall i, j :: 0 <= i < j < |made.caseIds| ==> made.caseIds[i] != made.caseIds[j]))
  {
    var ids := SelectedIds(s.traces, wanted);
    if ids != [] {
      AllHaveCases(s, ids, supply);
      ConvertingAddsOneEach(s, ids, supply, "");
      GroupedAre(ConvertedAll(s, ids, supply).evals, ids, evalId);
    }
  }

  // ----- the summary --------------------------------------------------------------------------------

  predicate IsTraceDataset(d: Dataset) { d.source == TAG || TAG in d.tags }

  predicate InTraceDataset(datasets: seq<Dataset>, evalId: string)
  {
    exists d :: d in datasets && IsTraceDataset(d) && evalId in d.caseIds
  }

  predicate HasGivenCase(evals: seq<TraceCase>, id: string)
  {
    exists c :: c in evals && IsGiven(c.source) && c.source == Some(id)
  }

  function UncoveredTraces(s: Session): seq<string>
  {
    Filter(EligibleIds(s.traces), id => !HasGivenCase(s.evals, id))
  }

  function UngroupedCases(s: Session): seq<TraceCase>
  {
    Filter(s.evals, (c: TraceCase) => IsGiven(c.source) && !InTraceDataset(s.datasets, c.evalId))
  }

  predicate GateReady(s: Session)
  {
    UncoveredTraces(s) == [] && UngroupedCases(s) == []
  }

  /** In the terms of the requirement. */
  lemma GateReadyIs(s: Session)
    ensures GateReady(s) <==>
      && (forall id :: id in EligibleIds(s.traces) ==> id != "" && CaseIndex(s.evals, id) < |s.evals|)
      && (forall c :: c in s.evals && IsGiven(c.source) ==> InTraceDataset(s.datasets, c.evalId))
  {
    EmptyIffNone(EligibleIds(s.traces), id => !HasGivenCase(s.evals, id));
    EmptyIffNone(s.evals, (c: TraceCase) => IsGiven(c.source) && !InTraceDataset(s.datasets, c.evalId));
    forall id: string
      ensures HasGivenCase(s.evals, id) <==> id != "" && CaseIndex(s.evals, id) < |s.evals|
    {
      CountIsPositiveIffCase(s.evals, id);
    }
    assert UncoveredTraces(s) == [] <==> forall id :: id in EligibleIds(s.traces) ==> HasGivenCase(s.evals, id);
    assert UngroupedCases(s) == [] <==> forall c :: c in s.evals && IsGiven(c.source) ==> InTraceDataset(s.datasets, c.evalId);
  }

  /** The cases a backfill groups. */
  predicate IsGrouped(s: Session, ids: seq<string>, supply: Supply, evalId: string)
  {
    evalId != "" && IsCaseOfOne(ConvertedAll(s, ids, supply).evals, ids, evalId)
  }

  lemma BackfillGroups(s: Session, ids: seq<string>, supply: Supply, evalId: string)
    ensures InTraceDataset(Backfilled(s, ids, supply).datasets, evalId) <==>
      InTraceDataset(s.datasets, evalId) || IsGrouped(s, ids, supply, evalId)
  {
    AllHaveCases(s, ids, supply);
    ConvertingAddsOneEach(s, ids, supply, "");
    var evals := ConvertedAll(s, ids, supply).evals;
    GroupedAre(evals, ids, evalId);
    var made := Tagged(Dedupe(CasesOf(evals, ids)));
    assert made in s.datasets + [made] && IsTraceDataset(made);
    forall d | d in s.datasets ensures d in s.datasets + [made] {}
  }

  /** What a backfill of all eligible traces leaves eligible and covered. */
  lemma BackfillCovers(s: Session, supply: Supply, id: string)
    ensures var ids := EligibleIds(s.traces);
      var after := Backfilled(s, ids, supply);
      && EligibleIds(after.traces) == ids
      && CountFrom(after.evals, id) == (if id in ids && CountFrom(s.evals, id) == 0 then 1 else CountFrom(s.evals, id))
      && (id in ids ==> CaseIndex(after.evals, id) < |after.evals|)
      && s.evals <= after.evals
  {
    var ids := EligibleIds(s.traces);
    var c := ConvertedAll(s, ids, supply);
    ConvertingAddsOneEach(s, ids, supply, id);
    AllHaveCases(s, ids, supply);
    OwnTraceAddsNoEligible(c.traces, supply.traceIds(|c.traces|));
  }

  /**
    After a successful backfill without explicit ids each eligible trace has a case, exactly one if it had none;
    the gate is ready exactly if no eligible trace lacks an identifier and every case made from a trace is
    grouped, now or by an earlier trace data set.
   */
  lemma GateReadyAfterBackfill(s: Session, supply: Supply)
    ensures var ids := EligibleIds(s.traces);
      var after := Backfilled(s, ids, supply);
      GateReady(after) <==>
        "" !in ids &&
        forall c :: c in after.evals && IsGiven(c.source) ==>
          InTraceDataset(s.datasets, c.evalId) || IsGrouped(s, ids, supply, c.evalId)
  {
    var ids := EligibleIds(s.traces);
    var after := Backfilled(s, ids, supply);
    GateReadyIs(after);
    BackfillCovers(s, supply, "");
    forall id | id in ids ensures CaseIndex(after.evals, id) < |after.evals| { BackfillCovers(s, supply, id); }
    forall c: TraceCase
      ensures InTraceDataset(after.datasets, c.evalId) <==> InTraceDataset(s.datasets, c.evalId) || IsGrouped(s, ids, supply, c.evalId)
    {
      BackfillGroups(s, ids, supply, c.evalId);
    }
  }

  /** Case identifiers are given and unique, and no trace has two cases. */
  ghost predicate CasesSound(evals: seq<TraceCase>)
  {
    && (forall c :: c in evals ==> c.evalId != "")
    && (forall i, j :: 0 <= i < j < |evals| ==> evals[i].evalId != evals[j].evalId)
    && (forall i, j :: 0 <= i < j < |evals| && evals[i].source.Some? ==> evals[i].source != evals[j].source)
  }

  /**
    With such cases the gate is ready exactly if no eligible trace lacks an identifier and the earlier cases of
    traces that are not eligible are in an earlier trace data set.
   */
  lemma GateReadyIffOldCasesAreGrouped(s: Session, supply: Supply)
    requires CasesSound(Backfilled(s, EligibleIds(s.traces), supply).evals)
    ensures var ids := EligibleIds(s.traces);
      GateReady(Backfilled(s, ids, supply)) <==>
        "" !in ids &&
        forall c :: c in s.evals && IsGiven(c.source) && c.source.value !in ids ==> InTraceDataset(s.datasets, c.evalId)
  {
    var ids := EligibleIds(s.traces);
    var after := Backfilled(s, ids, supply);
    GateReadyAfterBackfill(s, supply);
    BackfillCovers(s, supply, "");
    forall c | c in after.evals && IsGiven(c.source)
      ensures IsGrouped(s, ids, supply, c.evalId) <==> c.source.value in ids
      ensures c.source.value !in ids ==> c in s.evals
    {
      GroupedIffEligible(s, ids, supply, c);
    }
    assert forall c :: c in s.evals ==> c in after.evals;
  }

  lemma GroupedIffEligible(s: Session, ids: seq<string>, supply: Supply, c: TraceCase)
    requires CasesSound(ConvertedAll(s, ids, supply).evals)
    requires c in ConvertedAll(s, ids, supply).evals && IsGiven(c.source)
    ensures IsGrouped(s, ids, supply, c.evalId) <==> c.source.value in ids
    ensures c.source.value !in ids ==> c in s.evals
  {
    var evals := ConvertedAll(s, ids, supply).evals;
    var i :| 0 <= i < |evals| && evals[i] == c;
    AllHaveCases(s, ids, supply);
    var k := CaseIndex(evals, c.source.value);
    assert k == i;
    ConvertingAddsOneEach(s, ids, supply, c.source.value);
    NewCasesAreSelected(s, ids, supply, i);
  }

  lemma {:induction false} NewCasesAreSelected(s: Session, ids: seq<string>, supply: Supply, i: nat)
    requires i < |ConvertedAll(s, ids, supply).evals|
    ensures i >= |s.evals| ==> var c := ConvertedAll(s, ids, supply).evals[i]; c.source.Some? && c.source.value in ids
  {
    if ids != [] {
      var before, last := ids[..|ids| - 1], ids[|ids| - 1];
      assert ids == before + [last];
      var c := ConvertedAll(s, before, supply);
      if i < |c.evals| { NewCasesAreSelected(s, before, supply, i); }
    }
  }

  /** A second backfill creates no case. */
  lemma SecondBackfillCreatesNothing(s: Session, supply: Supply, again: Supply)
    ensures var once := Backfilled(s, EligibleIds(s.traces), supply);
      Backfilled(once, EligibleIds(once.traces), again).evals == once.evals
  {
    var ids := EligibleIds(s.traces);
    var once := Backfilled(s, ids, supply);
    BackfillCovers(s, supply, "");
    forall id | id in ids ensures CaseIndex(once.evals, id) < |once.evals| { BackfillCovers(s, supply, id); }
    ConvertingCoveredTraces(once, ids, again);
  }

  // ----- the service -----------------------------------------------------------------------------------

  lemma ConvertedAllNext(s: Session, ids: seq<string>, i: nat, supply: Supply)
    requires i < |ids|
    ensures ConvertedAll(s, ids[..i + 1], supply) == Converted(ConvertedAll(s, ids[..i], supply), ids[i], supply)
  {
    assert ids[..i + 1][..i] == ids[..i];
  }

  lemma {:induction false} ListedTracesExist(traces: seq<Trace>, wanted: seq<string>)
    ensures forall id :: id in ListedIds(traces, wanted) ==> HasTrace(traces, id)
  {
    if traces != [] {
      ListedTracesExist(traces[..|traces| - 1], wanted);
      assert traces == traces[..|traces| - 1] + [traces[|traces| - 1]];
    }
  }

  lemma SelectedTracesExist(traces: seq<Trace>, wanted: Option<seq<string>>)
    ensures forall id :: id in SelectedIds(traces, wanted) ==> HasTrace(traces, id)
  {
    match wanted
    case None => forall id | id in EligibleIds(traces) ensures HasTrace(traces, id) { EligibleIdsAre(traces, id); }
    case Some(ids) => ListedTracesExist(traces, ids);
  }

  lemma {:induction false} TracesStay(s: Session, ids: seq<string>, supply: Supply, id: string)
    requires HasTrace(s.traces, id)
    ensures HasTrace(ConvertedAll(s, ids, supply).traces, id)
  {
    if ids != [] {
      TracesStay(s, ids[..|ids| - 1], supply, id);
      var t :| t in ConvertedAll(s, ids[..|ids| - 1], supply).traces && t.id == id;
      assert t in ConvertedAll(s, ids, supply).traces;
    }
  }

  /** The cases gathered so far are those of the traces converted so far. */
  ghost predicate Gathered(evals: seq<TraceCase>, ids: seq<string>, evalIds: seq<string>)
  {
    |evalIds| == |ids| && forall j :: 0 <= j < |ids| ==>
      CaseIndex(evals, ids[j]) < |evals| && evalIds[j] == evals[CaseIndex(evals, ids[j])].evalId
  }

  /** A case that exists keeps its place while cases are appended. */
  lemma CaseStays(before: seq<TraceCase>, after: seq<TraceCase>, traceId: string)
    requires before <= after && CaseIndex(before, traceId) < |before|
    ensures CaseIndex(after, traceId) == CaseIndex(before, traceId)
  {
    var i := CaseIndex(before, traceId);
    assert after[i] == before[i];
    forall j | 0 <= j < i ensures after[j].source != Some(traceId) { assert after[j] == before[j]; }
  }

  lemma GatheredNext(before: seq<TraceCase>, after: seq<TraceCase>, ids: seq<string>, evalIds: seq<string>, id: string, evalId: string)
    requires before <= after && Gathered(before, ids, evalIds)
    requires CaseIndex(after, id) < |after| && evalId == after[CaseIndex(after, id)].evalId
    ensures Gathered(after, ids + [id], evalIds + [evalId])
  {
    forall j | 0 <= j < |ids|
      ensures CaseIndex(after, ids[j]) < |after| && evalIds[j] == after[CaseIndex(after, ids[j])].evalId
    {
      CaseStays(before, after, ids[j]);
    }
  }

  class TraceService {
    var session: Session
    const supply: Supply

    constructor (session: Session, supply: Supply)
      ensures this.session == session && this.supply == supply
    {
      this.session, this.supply := session, supply;
    }

    method ConvertTraceToEvalCase(traceId: string) returns (evalId: Option<string>)
      modifies this
      ensures evalId.None? <==> !HasTrace(old(session).traces, traceId)
      ensures evalId.None? ==> session == old(session)
      ensures evalId.Some? ==>
        && session == Converted(old(session), traceId, supply)
        && CaseIndex(session.evals, traceId) < |session.evals|
        && evalId.value == session.evals[CaseIndex(session.evals, traceId)].evalId
    {
      if !HasTrace(session.traces, traceId) { return None; }
      var i := CaseIndex(session.evals, traceId);
      if i < |session.evals| { return Some(session.evals[i].evalId); }
      var made := TraceCase(supply.evalIds(|session.evals|), Some(traceId));
      ghost var before := session.evals;
      session := session.(evals := session.evals + [made]);
      session := session.(traces := session.traces + [OwnTrace(supply.traceIds(|session.traces|))]);
      assert session.evals[|before|] == made && session.evals[..|before|] == before;
      evalId := Some(made.evalId);
    }

    method SelectTraces(wanted: Option<seq<string>>) returns (ids: seq<string>)
      ensures ids == SelectedIds(session.traces, wanted)
    {
      ids := [];
      var traces := session.traces;
      for i := 0 to |traces|
        invariant ids == SelectedIds(traces[..i], wanted)
      {
        assert traces[..i + 1][..i] == traces[..i];
        if wanted.Some? && traces[i].id !in wanted.value { continue; }
        if wanted.None? && !IsEligible(traces[i]) { continue; }
        ids := ids + [traces[i].id];
      }
      assert traces[..|traces|] == traces;
    }

    method CreateDatasetFromFailedTraces(wanted: Option<seq<string>>) returns (reply: Result<Dataset, BackfillError>)
      modifies this
      ensures match CreateDataset(old(session), wanted, supply)
              case Err(e) => reply == Err(e) && session == old(session)
              case Ok(after) => session == after && reply == Ok(after.datasets[|after.datasets| - 1])
    {
      var ids := SelectTraces(wanted);
      if ids == [] { return Err(NothingToBackfill); }
      var evalIds := ConvertSelected(ids, wanted);
      var made := Tagged(Dedupe(evalIds));
      session := session.(datasets := session.datasets + [made]);
      session := session.(traces := session.traces + [OwnTrace(supply.traceIds(|session.traces|))]);
      reply := Ok(made);
    }

    method ConvertSelected(ids: seq<string>, wanted: Option<seq<string>>) returns (evalIds: seq<string>)
      requires ids == SelectedIds(session.traces, wanted)
      modifies this
      ensures session == ConvertedAll(old(session), ids, supply)
      ensures forall id :: id in ids ==> CaseIndex(session.evals, id) < |session.evals|
      ensures evalIds == CasesOf(session.evals, ids)
    {
      ghost var before := session;
      SelectedTracesExist(session.traces, wanted);
      evalIds := [];
      for i := 0 to |ids|
        invariant session == ConvertedAll(before, ids[..i], supply)
        invariant Gathered(session.evals, ids[..i], evalIds)
      {
        ConvertedAllNext(before, ids, i, supply);
        TracesStay(before, ids[..i], supply, ids[i]);
        ghost var evals := session.evals;
        ConvertedAddsOne(session, ids[i], supply, "");
        var evalId := ConvertTraceToEvalCase(ids[i]);
        GatheredNext(evals, session.evals, ids[..i], evalIds, ids[i], evalId.value);
        TakeNext(ids, i);
        evalIds := evalIds + [evalId.value];
      }
      assert ids[..|ids|] == ids;
    }
  }
}
