/**
  Red-team cases: the generator that turns high-risk findings, failure modes and weakly reviewed nodes into draft
  cases, the coverage summary that reports gaps on its own, and the approve, reject and sync lifecycle.
 */
module RedTeams {
  import opened Prelude
  import opened ReleaseModels
  import opened EvalDatasets

  datatype Finding = Finding(id: string, severity: Severity, dismissed: bool, stageId: Option<int>)

  /** Whether the review texts of a node count as weak is a text heuristic and given here. */
  datatype Node = Node(id: string, modes: seq<string>, weakReview: bool, severePolicy: bool)

  datatype CaseStatus = Draft | ApprovedCase | RejectedCase | SyncedToEval

  datatype RedTeamCase = RedTeamCase(
    id: string, stage: int, node: Option<string>, finding: Option<string>, mode: Option<string>,
    severity: Severity, status: CaseStatus, linkedEval: Option<string>)

  /** An EvalCase with the red-team case it was made from, if any. */
  datatype SyncedEval = SyncedEval(evalId: string, source: Option<string>)

  datatype Lab = Lab(
    findings: seq<Finding>, modes: seq<FailureMode>, nodes: seq<Node>, lowTier: bool,
    cases: seq<RedTeamCase>, evals: seq<SyncedEval>, datasets: seq<seq<string>>)

  // ----- what calls for a case -------------------------------------------------------------

  datatype Need = FindingNeed(finding: string, severity: Severity)
                | ModeNeed(mode: string, target: Option<string>, severity: Severity)
                | WeakNeed(node: string)

  predicate IsActive(c: RedTeamCase) { c.status != RejectedCase }

  predicate IsEligible(f: Finding, stage: int)
  {
    IsSevere(f.severity) && !f.dismissed && (f.stageId.None? || f.stageId.value == stage)
  }

  /** One entry per occurrence of the mode in a node's list. */
  function Occurrences(modes: seq<string>, m: string, node: string): seq<Option<string>>
  {
    if modes == [] then []
    else Occurrences(modes[..|modes| - 1], m, node) + if modes[|modes| - 1] == m then [Some(node)] else []
  }

  function NodesAddressing(nodes: seq<Node>, m: string): seq<Option<string>>
  {
    if nodes == [] then []
    else NodesAddressing(nodes[..|nodes| - 1], m) + Occurrences(nodes[|nodes| - 1].modes, m, nodes[|nodes| - 1].id)
  }

  function TargetsOf(nodes: seq<Node>, m: string): seq<Option<string>>
  {
    if NodesAddressing(nodes, m) == [] then [None] else NodesAddressing(nodes, m)
  }

  function FindingNeeds(findings: seq<Finding>, stage: int): seq<Need>
  {
    if findings == [] then []
    else
      var last := findings[|findings| - 1];
      FindingNeeds(findings[..|findings| - 1], stage) + if IsEligible(last, stage) then [FindingNeed(last.id, last.severity)] else []
  }

  function TargetNeeds(m: FailureMode, targets: seq<Option<string>>): seq<Need>
  {
    seq(|targets|, i requires 0 <= i < |targets| => ModeNeed(m.id, targets[i], m.severity))
  }

  function ModeNeeds(modes: seq<FailureMode>, nodes: seq<Node>): seq<Need>
  {
    if modes == [] then []
    else
      var last := modes[|modes| - 1];
      ModeNeeds(modes[..|modes| - 1], nodes) + if IsSevere(last.severity) then TargetNeeds(last, TargetsOf(nodes, last.id)) else []
  }

  function WeakNeeds(nodes: seq<Node>): seq<Need>
  {
    if nodes == [] then []
    else WeakNeeds(nodes[..|nodes| - 1]) + if nodes[|nodes| - 1].weakReview then [WeakNeed(nodes[|nodes| - 1].id)] else []
  }

  function Needs(lab: Lab, stage: int): seq<Need>
  {
    FindingNeeds(lab.findings, stage) + ModeNeeds(lab.modes, lab.nodes) + WeakNeeds(lab.nodes)
  }

  // ----- generation ----------------------------------------------------------------------------

  predicate Names(a: string, b: Option<string>) { a != "" && b == Some(a) }

  /** Whether a case already answers a need; empty identifiers are never looked for. */
  predicate Serves(c: RedTeamCase, n: Need)
  {
    IsActive(c) &&
    match n
    case FindingNeed(f, _) => Names(f, c.finding)
    case ModeNeed(m, target, _) =>
      || (Names(m, c.mode) && (target.None? || c.node == target))
      || (target.Some? && Names(target.value, c.node))
    case WeakNeed(node) => Names(node, c.node)
  }

  predicate CaseExists(cases: seq<RedTeamCase>, n: Need)
  {
    exists c :: c in cases && Serves(c, n)
  }

  function CaseFor(n: Need, stage: int, id: string): RedTeamCase
  {
    match n
    case FindingNeed(f, s) => RedTeamCase(id, stage, None, Some(f), None, s, Draft, None)
    case ModeNeed(m, target, s) => RedTeamCase(id, stage, target, None, Some(m), s, Draft, None)
    case WeakNeed(node) => RedTeamCase(id, stage, Some(node), None, None, High, Draft, None)
  }

  function CoverOne(cases: seq<RedTeamCase>, n: Need, stage: int, ids: nat -> string): seq<RedTeamCase>
  {
    if CaseExists(cases, n) then cases else cases + [CaseFor(n, stage, ids(|cases|))]
  }

  function Cover(cases: seq<RedTeamCase>, needs: seq<Need>, stage: int, ids: nat -> string): seq<RedTeamCase>
  {
    if needs == [] then cases else CoverOne(Cover(cases, needs[..|needs| - 1], stage, ids), needs[|needs| - 1], stage, ids)
  }

  function Generate(lab: Lab, stage: int, ids: nat -> string): Lab
  {
    lab.(cases := Cover(lab.cases, Needs(lab, stage), stage, ids))
  }

  /** Identifiers by which a case can be found again. */
  predicate IsNameable(n: Need)
  {
    match n
    case FindingNeed(f, _) => f != ""
    case ModeNeed(m, target, _) => m != "" || (target.Some? && target.value != "")
    case WeakNeed(node) => node != ""
  }

  lemma {:induction false} CoverGrows(cases: seq<RedTeamCase>, needs: seq<Need>, stage: int, ids: nat -> string)
    ensures cases <= Cover(cases, needs, stage, ids)
  {
    if needs != [] { CoverGrows(cases, needs[..|needs| - 1], stage, ids); }
  }

  lemma {:induction false} CoverInParts(cases: seq<RedTeamCase>, a: seq<Need>, b: seq<Need>, stage: int, ids: nat -> string)
    ensures Cover(cases, a + b, stage, ids) == Cover(Cover(cases, a, stage, ids), b, stage, ids)
  {
    if b == [] {
      assert a + b == a;
    } else {
      CoverInParts(cases, a, b[..|b| - 1], stage, ids);
      assert (a + b)[..|a + b| - 1] == a + b[..|b| - 1];
    }
  }

  lemma CoverOneServes(cases: seq<RedTeamCase>, n: Need, stage: int, ids: nat -> string)
    ensures IsNameable(n) <==> CaseExists(CoverOne(cases, n, stage, ids), n)
    ensures !IsNameable(n) ==> !CaseExists(cases, n)
  {
    var c := CaseFor(n, stage, ids(|cases|));
    assert IsNameable(n) ==> Serves(c, n);
    assert c in cases + [c];
  }

  /** After covering a list of needs, each that can be named has an active case. */
  lemma {:induction false} EveryNameableNeedIsServed(cases: seq<RedTeamCase>, needs: seq<Need>, stage: int, ids: nat -> string)
    ensures forall n :: n in needs && IsNameable(n) ==> CaseExists(Cover(cases, needs, stage, ids), n)
  {
    if needs != [] {
      var before, last := needs[..|needs| - 1], needs[|needs| - 1];
      EveryNameableNeedIsServed(cases, before, stage, ids);
      CoverOneServes(Cover(cases, before, stage, ids), last, stage, ids);
      assert needs == before + [last];
    }
  }

  function CountUnnameable(needs: seq<Need>): nat
  {
    if needs == [] then 0
    else CountUnnameable(needs[..|needs| - 1]) + if IsNameable(needs[|needs| - 1]) then 0 else 1
  }

  lemma {:induction false} CoveringServedNeeds(cases: seq<RedTeamCase>, needs: seq<Need>, stage: int, ids: nat -> string)
    requires forall n :: n in needs && IsNameable(n) ==> CaseExists(cases, n)
    ensures |Cover(cases, needs, stage, ids)| == |cases| + CountUnnameable(needs)
  {
    if needs != [] {
      var before, last := needs[..|needs| - 1], needs[|needs| - 1];
      assert needs == before + [last];
      CoveringServedNeeds(cases, before, stage, ids);
      CoverGrows(cases, before, stage, ids);
      CoverOneServes(Cover(cases, before, stage, ids), last, stage, ids);
    }
  }

  lemma {:induction false} NothingUnnameable(needs: seq<Need>)
    ensures CountUnnameable(needs) == 0 <==> forall n :: n in needs ==> IsNameable(n)
  {
    if needs != [] {
      NothingUnnameable(needs[..|needs| - 1]);
      assert needs == needs[..|needs| - 1] + [needs[|needs| - 1]];
    }
  }

  /**
    Generating again without rejections creates one more case for each need whose identifiers are empty, and
    nothing else; so it creates nothing exactly when every need can be named.
   */
  lemma SecondGenerationCreatesOnlyUnnamed(lab: Lab, stage: int, ids: nat -> string)
    ensures var once := Generate(lab, stage, ids);
      && |Generate(once, stage, ids).cases| == |once.cases| + CountUnnameable(Needs(lab, stage))
      && (Generate(once, stage, ids) == once <==> forall n :: n in Needs(lab, stage) ==> IsNameable(n))
  {
    NothingUnnameable(Needs(lab, stage));
    CoverGrows(Generate(lab, stage, ids).cases, Needs(lab, stage), stage, ids);
    EveryNameableNeedIsServed(lab.cases, Needs(lab, stage), stage, ids);
    CoveringServedNeeds(Generate(lab, stage, ids).cases, Needs(lab, stage), stage, ids);
  }

  // ----- the coverage summary --------------------------------------------------------------------

  function MissingFindings(lab: Lab, stage: int): set<string>
  {
    set f | f in lab.findings && IsEligible(f, stage) && !(exists c :: c in lab.cases && IsActive(c) && Names(f.id, c.finding)) :: f.id
  }

  predicate IsHighMode(lab: Lab, id: string)
  {
    exists m :: m in lab.modes && m.id == id && (m.severity == Critical || (m.severity == High && !lab.lowTier))
  }

  predicate IsHighNode(lab: Lab, n: Node)
  {
    n.severePolicy || exists id :: id in n.modes && IsHighMode(lab, id)
  }

  predicate HasCase(cases: seq<RedTeamCase>, node: string)
  {
    exists c :: c in cases && IsActive(c) && Names(node, c.node)
  }

  function MissingNodes(lab: Lab): set<string>
  {
    set n | n in lab.nodes && IsHighNode(lab, n) && !HasCase(lab.cases, n.id) :: n.id
  }

  lemma {:induction false} FindingNeedsAre(findings: seq<Finding>, stage: int)
    ensures forall f :: f in findings && IsEligible(f, stage) ==> FindingNeed(f.id, f.severity) in FindingNeeds(findings, stage)
    ensures forall n :: n in FindingNeeds(findings, stage) ==> n.FindingNeed?
  {
    if findings != [] {
      FindingNeedsAre(findings[..|findings| - 1], stage);
      assert findings == findings[..|findings| - 1] + [findings[|findings| - 1]];
    }
  }

  lemma {:induction false} OccurrencesAre(modes: seq<string>, m: string, node: string)
    ensures forall t :: t in Occurrences(modes, m, node) <==> t == Some(node) && m in modes
  {
    if modes != [] {
      OccurrencesAre(modes[..|modes| - 1], m, node);
      assert modes == modes[..|modes| - 1] + [modes[|modes| - 1]];
    }
  }

  lemma {:induction false} NodesAddressingAre(nodes: seq<Node>, m: string, id: string)
    ensures Some(id) in NodesAddressing(nodes, m) <==> exists n :: n in nodes && n.id == id && m in n.modes
  {
    if nodes != [] {
      var before, last := nodes[..|nodes| - 1], nodes[|nodes| - 1];
      NodesAddressingAre(before, m, id);
      OccurrencesAre(last.modes, m, last.id);
      assert nodes == before + [last];
    }
  }

  lemma {:induction false} WeakNeedsAre(nodes: seq<Node>)
    ensures forall n :: n in WeakNeeds(nodes) <==> n.WeakNeed? && exists x :: x in nodes && x.weakReview && x.id == n.node
  {
    if nodes != [] {
      var before, last := nodes[..|nodes| - 1], nodes[|nodes| - 1];
      WeakNeedsAre(before);
      assert nodes == before + [last];
    }
  }

  lemma {:induction false} FindingNeedsAreExact(findings: seq<Finding>, stage: int, n: Need)
    ensures n in FindingNeeds(findings, stage) <==>
      n.FindingNeed? && exists f :: f in findings && f.id == n.finding && f.severity == n.severity && CallsForCase(f, stage)
  {
    if findings != [] {
      FindingNeedsAreExact(findings[..|findings| - 1], stage, n);
      var last := findings[|findings| - 1];
      assert forall f :: f in findings <==> f in findings[..|findings| - 1] || f == last;
      assert IsEligible(last, stage) <==> CallsForCase(last, stage);
    }
  }

  /** A severe finding that was not dismissed, of this stage or of none. */
  predicate CallsForCase(f: Finding, stage: int)
  {
    f.severity in {High, Critical} && !f.dismissed && (f.stageId == None || f.stageId == Some(stage))
  }

  /** The mode is severe and to be covered on this node, or on none if no node addresses it. */
  ghost predicate IsModeNeed(modes: seq<FailureMode>, nodes: seq<Node>, n: Need)
  {
    n.ModeNeed? && n.severity in {High, Critical} && (exists m :: m in modes && m.id == n.mode && m.severity == n.severity) &&
    match n.target
    case Some(id) => exists x :: x in nodes && x.id == id && n.mode in x.modes
    case None => forall x :: x in nodes ==> n.mode !in x.modes
  }

  lemma NoneAddressing(nodes: seq<Node>, m: string)
    ensures None !in NodesAddressing(nodes, m)
    ensures NodesAddressing(nodes, m) == [] <==> forall x :: x in nodes ==> m !in x.modes
  {
    if nodes != [] {
      var before, last := nodes[..|nodes| - 1], nodes[|nodes| - 1];
      NoneAddressing(before, m);
      OccurrencesAre(last.modes, m, last.id);
      assert forall x :: x in nodes <==> x in before || x == last;
      if m in last.modes { assert Some(last.id) in Occurrences(last.modes, m, last.id); }
      var here := Occurrences(last.modes, m, last.id);
      if here != [] { assert here[0] in here; }
    }
  }

  lemma TargetIs(nodes: seq<Node>, m: string, t: Option<string>)
    ensures t in TargetsOf(nodes, m) <==>
      match t case Some(id) => (exists x :: x in nodes && x.id == id && m in x.modes)
              case None => (forall x :: x in nodes ==> m !in x.modes)
  {
    NoneAddressing(nodes, m);
    if t.Some? { TargetsAre(nodes, m, t.value); }
  }

  lemma {:induction false} ModeNeedsAreExact(modes: seq<FailureMode>, nodes: seq<Node>, n: Need)
    ensures n in ModeNeeds(modes, nodes) <==> IsModeNeed(modes, nodes, n)
  {
    if modes != [] {
      var before, last := modes[..|modes| - 1], modes[|modes| - 1];
      ModeNeedsAreExact(before, nodes, n);
      assert forall m :: m in modes <==> m in before || m == last;
      TargetNeedsAre(last, TargetsOf(nodes, last.id), n);
      if n.ModeNeed? { TargetIs(nodes, last.id, n.target); }
    }
  }

  /**
    Exactly what calls for a case: a severe finding of the stage, a severe failure mode on each node that addresses it or
    on none, and a node with a weak review.
   */
  lemma NeedsAreExact(lab: Lab, stage: int, n: Need)
    ensures n in Needs(lab, stage) <==>
      match n
      case FindingNeed(id, s) => (exists f :: f in lab.findings && f.id == id && f.severity == s && CallsForCase(f, stage))
      case ModeNeed(_, _, _) => IsModeNeed(lab.modes, lab.nodes, n)
      case WeakNeed(id) => (exists x :: x in lab.nodes && x.weakReview && x.id == id)
  {
    FindingNeedsAreExact(lab.findings, stage, n);
    ModeNeedsAreExact(lab.modes, lab.nodes, n);
    WeakNeedsAre(lab.nodes);
  }

  /** A case as it is made for a need: a draft, on the stage, about what the need names, linked to nothing. */
  predicate IsDraftFor(c: RedTeamCase, n: Need, stage: int)
  {
    c.stage == stage && c.status == Draft && c.linkedEval == None &&
    match n
    case FindingNeed(id, s) => c.finding == Some(id) && c.node == None && c.mode == None && c.severity == s
    case ModeNeed(id, target, s) => c.mode == Some(id) && c.node == target && c.finding == None && c.severity == s
    case WeakNeed(id) => c.node == Some(id) && c.mode == None && c.finding == None && c.severity == High
  }

  /** Generation keeps every case, and each one it adds is a draft for a need that no active case answered before. */
  lemma {:induction false} GeneratedCasesAreNeeded(cases: seq<RedTeamCase>, needs: seq<Need>, stage: int, ids: nat -> string, k: nat)
    returns (n: Need)
    requires |cases| <= k < |Cover(cases, needs, stage, ids)|
    ensures var after := Cover(cases, needs, stage, ids);
      && cases <= after && n in needs && IsDraftFor(after[k], n, stage) && after[k].id == ids(k)
      && !exists c :: c in after[..k] && Serves(c, n)
  {
    CoverGrows(cases, needs, stage, ids);
    var before, last := needs[..|needs| - 1], needs[|needs| - 1];
    var covered := Cover(cases, before, stage, ids);
    if k < |covered| {
      n := GeneratedCasesAreNeeded(cases, before, stage, ids, k);
      assert Cover(cases, needs, stage, ids)[..k] == covered[..k];
    } else {
      n := last;
      assert Cover(cases, needs, stage, ids)[..k] == covered;
    }
  }

  /** The node a need is about, if it is about one. */
  function NodeOf(n: Need): Option<string>
  {
    match n case FindingNeed(_, _) => None case ModeNeed(_, t, _) => t case WeakNeed(id) => Some(id)
  }

  /** Generation gives a node a case exactly if it had one or some need is about it. */
  lemma {:induction false} CoverTargets(cases: seq<RedTeamCase>, needs: seq<Need>, stage: int, ids: nat -> string, node: string)
    requires node != ""
    ensures HasCase(Cover(cases, needs, stage, ids), node) <==>
      HasCase(cases, node) || exists n :: n in needs && NodeOf(n) == Some(node)
  {
    if needs != [] {
      var before, last := needs[..|needs| - 1], needs[|needs| - 1];
      assert needs == before + [last];
      CoverTargets(cases, before, stage, ids, node);
      CoverOneTargets(Cover(cases, before, stage, ids), last, stage, ids, node);
    }
  }

  lemma CoverOneTargets(cases: seq<RedTeamCase>, n: Need, stage: int, ids: nat -> string, node: string)
    requires node != ""
    ensures HasCase(CoverOne(cases, n, stage, ids), node) <==> HasCase(cases, node) || NodeOf(n) == Some(node)
  {
    var c := CaseFor(n, stage, ids(|cases|));
    assert Names(node, c.node) <==> NodeOf(n) == Some(node);
    assert c in cases + [c];
    forall x | x in cases ensures x in cases + [c] {}
  }

  predicate AddressesSevereMode(lab: Lab, id: string)
  {
    exists n, m :: n in lab.nodes && n.id == id && m in lab.modes && IsSevere(m.severity) && m.id in n.modes
  }

  predicate IsWeak(lab: Lab, id: string)
  {
    exists n :: n in lab.nodes && n.id == id && n.weakReview
  }

  ghost predicate AnyAbout(needs: seq<Need>, id: string)
  {
    exists n :: n in needs && NodeOf(n) == Some(id)
  }

  lemma AboutParts(a: seq<Need>, b: seq<Need>, id: string)
    ensures AnyAbout(a + b, id) <==> AnyAbout(a, id) || AnyAbout(b, id)
  {
  }

  lemma TargetNeedsAre(m: FailureMode, targets: seq<Option<string>>, n: Need)
    ensures n in TargetNeeds(m, targets) <==> n.ModeNeed? && n.mode == m.id && n.severity == m.severity && n.target in targets
  {
    if n.ModeNeed? && n.target in targets && n.mode == m.id && n.severity == m.severity {
      var i :| 0 <= i < |targets| && targets[i] == n.target;
      assert TargetNeeds(m, targets)[i] == n;
    }
  }

  lemma TargetsAre(nodes: seq<Node>, m: string, id: string)
    ensures Some(id) in TargetsOf(nodes, m) <==> exists n :: n in nodes && n.id == id && m in n.modes
  {
    NodesAddressingAre(nodes, m, id);
  }

  lemma {:induction false} SevereModeHasNeed(modes: seq<FailureMode>, nodes: seq<Node>, n: Node, m: FailureMode)
    requires n in nodes && m in modes && IsSevere(m.severity) && m.id in n.modes
    ensures ModeNeed(m.id, Some(n.id), m.severity) in ModeNeeds(modes, nodes)
  {
    var before, last := modes[..|modes| - 1], modes[|modes| - 1];
    assert modes == before + [last];
    if m in before {
      SevereModeHasNeed(before, nodes, n, m);
    } else {
      TargetsAre(nodes, m.id, n.id);
      TargetNeedsAre(m, TargetsOf(nodes, m.id), ModeNeed(m.id, Some(n.id), m.severity));
    }
  }

  lemma {:induction false} ModeNeedHasSevereMode(modes: seq<FailureMode>, nodes: seq<Node>, need: Need, id: string)
    returns (n: Node, m: FailureMode)
    requires need in ModeNeeds(modes, nodes) && NodeOf(need) == Some(id)
    ensures n in nodes && n.id == id && m in modes && IsSevere(m.severity) && m.id in n.modes
  {
    var before, last := modes[..|modes| - 1], modes[|modes| - 1];
    if need in ModeNeeds(before, nodes) {
      n, m := ModeNeedHasSevereMode(before, nodes, need, id);
    } else {
      m := last;
      TargetNeedsAre(m, TargetsOf(nodes, m.id), need);
      TargetsAre(nodes, m.id, id);
      n :| n in nodes && n.id == id && m.id in n.modes;
    }
  }

  lemma ModeNeedsAboutNode(lab: Lab, id: string)
    ensures AnyAbout(ModeNeeds(lab.modes, lab.nodes), id) <==> AddressesSevereMode(lab, id)
  {
    if AddressesSevereMode(lab, id) {
      var n, m :| n in lab.nodes && n.id == id && m in lab.modes && IsSevere(m.severity) && m.id in n.modes;
      SevereModeHasNeed(lab.modes, lab.nodes, n, m);
      assert NodeOf(ModeNeed(m.id, Some(id), m.severity)) == Some(id);
    } else if AnyAbout(ModeNeeds(lab.modes, lab.nodes), id) {
      var need :| need in ModeNeeds(lab.modes, lab.nodes) && NodeOf(need) == Some(id);
      var n, m := ModeNeedHasSevereMode(lab.modes, lab.nodes, need, id);
    }
  }

  lemma WeakNeedsAboutNode(lab: Lab, id: string)
    ensures AnyAbout(WeakNeeds(lab.nodes), id) <==> IsWeak(lab, id)
  {
    WeakNeedsAre(lab.nodes);
    if IsWeak(lab, id) { assert WeakNeed(id) in WeakNeeds(lab.nodes) && NodeOf(WeakNeed(id)) == Some(id); }
  }

  lemma NeedsAboutNode(lab: Lab, stage: int, id: string)
    ensures AnyAbout(Needs(lab, stage), id) <==> AddressesSevereMode(lab, id) || IsWeak(lab, id)
  {
    var findings, modes := FindingNeeds(lab.findings, stage), ModeNeeds(lab.modes, lab.nodes);
    FindingNeedsAre(lab.findings, stage);
    assert !AnyAbout(findings, id);
    AboutParts(findings, modes, id);
    AboutParts(findings + modes, WeakNeeds(lab.nodes), id);
    ModeNeedsAboutNode(lab, id);
    WeakNeedsAboutNode(lab, id);
  }

  /**
    After generation, every node that addresses a severe failure mode or is weakly reviewed has a case; a node is
    still missing exactly if its identifier is empty, or it is high-risk by policy alone and had no case.
   */
  lemma MissingNodesAfterGeneration(lab: Lab, stage: int, ids: nat -> string, id: string)
    ensures var after := Generate(lab, stage, ids);
      && (id != "" && (AddressesSevereMode(lab, id) || IsWeak(lab, id)) ==> HasCase(after.cases, id))
      && (id in MissingNodes(after) <==>
            (exists n :: n in lab.nodes && n.id == id && IsHighNode(lab, n)) &&
            (id == "" || (!HasCase(lab.cases, id) && !AddressesSevereMode(lab, id) && !IsWeak(lab, id))))
  {
    var after := Generate(lab, stage, ids);
    NeedsAboutNode(lab, stage, id);
    forall n: Node ensures IsHighNode(after, n) <==> IsHighNode(lab, n) { SameHighNode(lab, after, n); }
    if id != "" { CoverTargets(lab.cases, Needs(lab, stage), stage, ids, id); }
  }

  lemma SameHighNode(lab: Lab, after: Lab, n: Node)
    requires after.modes == lab.modes && after.lowTier == lab.lowTier
    ensures IsHighNode(after, n) <==> IsHighNode(lab, n)
  {
    forall id: string ensures IsHighMode(after, id) <==> IsHighMode(lab, id) {}
  }

  /** After generation the only safety findings reported as missing are those without an identifier. */
  lemma MissingFindingsAfterGeneration(lab: Lab, stage: int, ids: nat -> string)
    ensures MissingFindings(Generate(lab, stage, ids), stage) ==
      set f | f in lab.findings && IsEligible(f, stage) && f.id == "" :: f.id
  {
    var needs, after := Needs(lab, stage), Generate(lab, stage, ids);
    FindingNeedsAre(lab.findings, stage);
    EveryNameableNeedIsServed(lab.cases, needs, stage, ids);
    forall f | f in lab.findings && IsEligible(f, stage) && f.id != ""
      ensures exists c :: c in after.cases && IsActive(c) && Names(f.id, c.finding)
    {
      var n := FindingNeed(f.id, f.severity);
      assert n in needs && IsNameable(n);
      var c :| c in after.cases && Serves(c, n);
    }
  }

  // ----- approve, reject, sync ------------------------------------------------------------------------

  datatype LifecycleError = CaseNotFound | RejectedStaysRejected | NotApproved | NothingSynced | EvalNotFound

  function CaseIndex(cases: seq<RedTeamCase>, id: string): (i: nat)
    ensures i <= |cases|
    ensures i < |cases| ==> cases[i].id == id
    ensures forall j :: 0 <= j < i ==> cases[j].id != id
  {
    FirstIndex(cases, (c: RedTeamCase) => c.id == id)
  }

  function SetCase(lab: Lab, i: nat, c: RedTeamCase): Lab
    requires i < |lab.cases|
  {
    lab.(cases := lab.cases[i := c])
  }

  function ApproveCase(lab: Lab, id: string): Result<Lab, LifecycleError>
  {
    var i := CaseIndex(lab.cases, id);
    if i == |lab.cases| then Err(CaseNotFound)
    else if lab.cases[i].status == RejectedCase then Err(RejectedStaysRejected)
    else Ok(SetCase(lab, i, lab.cases[i].(status := ApprovedCase)))
  }

  function RejectCase(lab: Lab, id: string): Result<Lab, LifecycleError>
  {
    var i := CaseIndex(lab.cases, id);
    if i == |lab.cases| then Err(CaseNotFound) else Ok(SetCase(lab, i, lab.cases[i].(status := RejectedCase)))
  }

  predicate EvalExists(evals: seq<SyncedEval>, id: string)
  {
    exists e :: e in evals && e.evalId == id
  }

  predicate IsLinked(c: RedTeamCase) { c.linkedEval.Some? && c.linkedEval.value != "" }

  function SyncCase(lab: Lab, id: string, newId: string): Result<Lab, LifecycleError>
  {
    var i := CaseIndex(lab.cases, id);
    if i == |lab.cases| then Err(CaseNotFound)
    else
      var c := lab.cases[i];
      if c.status != ApprovedCase && c.status != SyncedToEval then Err(NotApproved)
      else if IsLinked(c) && EvalExists(lab.evals, c.linkedEval.value) then Ok(lab)
      else
        Ok(SetCase(lab, i, c.(linkedEval := Some(newId), status := SyncedToEval)).(
             evals := lab.evals + [SyncedEval(newId, Some(c.id))]))
  }

  /** Approving fails for a rejected case alone, rejecting for none that exists; each sets the status and nothing else. */
  lemma DecisionsLeadTo(lab: Lab, id: string)
    ensures var i := CaseIndex(lab.cases, id);
      && (ApproveCase(lab, id).Ok? <==> i < |lab.cases| && lab.cases[i].status != RejectedCase)
      && (RejectCase(lab, id).Ok? <==> i < |lab.cases|)
      && (ApproveCase(lab, id).Ok? ==>
            ApproveCase(lab, id).value == lab.(cases := lab.cases[i := lab.cases[i].(status := ApprovedCase)]))
      && (RejectCase(lab, id).Ok? ==>
            RejectCase(lab, id).value == lab.(cases := lab.cases[i := lab.cases[i].(status := RejectedCase)]))
  {
  }

  /** A case is synced exactly if it was approved or synced before; it then has an EvalCase, a new one if it had none. */
  lemma SyncLeadsTo(lab: Lab, id: string, newId: string)
    requires newId != ""
    ensures var i := CaseIndex(lab.cases, id);
      && (SyncCase(lab, id, newId).Ok? <==> i < |lab.cases| && lab.cases[i].status in {ApprovedCase, SyncedToEval})
      && (SyncCase(lab, id, newId).Ok? ==>
            var after := SyncCase(lab, id, newId).value;
            var had := exists e :: e in lab.evals && e.evalId != "" && lab.cases[i].linkedEval == Some(e.evalId);
            && IsLinked(after.cases[i]) && EvalExists(after.evals, after.cases[i].linkedEval.value)
            && (had ==> after == lab)
            && (!had ==> after == lab.(
                  cases := lab.cases[i := lab.cases[i].(linkedEval := Some(newId), status := SyncedToEval)],
                  evals := lab.evals + [SyncedEval(newId, Some(lab.cases[i].id))])))
  {
    var i := CaseIndex(lab.cases, id);
    if SyncCase(lab, id, newId).Ok? && SyncCase(lab, id, newId).value != lab {
      var after := SyncCase(lab, id, newId).value;
      assert after.evals[|lab.evals|] in after.evals;
    }
  }

  datatype LabStep =
    | GenerateStep(stage: int)
    | CreateStep(need: Need, atStage: int)
    | ApproveStep(approved: string)
    | RejectStep(rejected: string)
    | SyncStep(synced: string, newId: string)
    // other services add cases of their own and change what is generated from
    | OtherStep(next: Lab, added: seq<string>)

  function OrSame(r: Result<Lab, LifecycleError>, lab: Lab): Lab
  {
    match r case Ok(next) => next case Err(_) => lab
  }

  function Unsourced(ids: seq<string>): seq<SyncedEval>
  {
    seq(|ids|, i requires 0 <= i < |ids| => SyncedEval(ids[i], None))
  }

  function TakeLabStep(lab: Lab, s: LabStep, ids: nat -> string): Lab
  {
    match s
    case GenerateStep(stage) => Generate(lab, stage, ids)
    case CreateStep(need, stage) => lab.(cases := lab.cases + [CaseFor(need, stage, ids(|lab.cases|))])
    case ApproveStep(id) => OrSame(ApproveCase(lab, id), lab)
    case RejectStep(id) => OrSame(RejectCase(lab, id), lab)
    case SyncStep(id, newId) => OrSame(SyncCase(lab, id, newId), lab)
    case OtherStep(next, added) => next.(cases := lab.cases, evals := lab.evals + Unsourced(added))
  }

  function AfterLabSteps(lab: Lab, steps: seq<LabStep>, ids: nat -> string): Lab
  {
    if steps == [] then lab else TakeLabStep(AfterLabSteps(lab, steps[..|steps| - 1], ids), steps[|steps| - 1], ids)
  }

  function CountFrom(evals: seq<SyncedEval>, id: string): nat
  {
    if evals == [] then 0 else CountFrom(evals[..|evals| - 1], id) + if evals[|evals| - 1].source == Some(id) then 1 else 0
  }

  /** Case identifiers follow position; each case has exactly one EvalCase if it is linked, and otherwise none. */
  ghost predicate LinksSound(cases: seq<RedTeamCase>, evals: seq<SyncedEval>, ids: nat -> string)
  {
    && (forall i :: 0 <= i < |cases| ==> cases[i].id == ids(i))
    && (forall i :: 0 <= i < |cases| && cases[i].linkedEval.Some? ==> IsLinked(cases[i]) && EvalExists(evals, cases[i].linkedEval.value))
    && (forall n: nat :: CountFrom(evals, ids(n)) == if n < |cases| && cases[n].linkedEval.Some? then 1 else 0)
  }

  ghost predicate Injective(ids: nat -> string)
  {
    forall m, n :: ids(m) == ids(n) ==> m == n
  }

  lemma AppendKeepsLinks(cases: seq<RedTeamCase>, evals: seq<SyncedEval>, c: RedTeamCase, ids: nat -> string)
    requires LinksSound(cases, evals, ids) && c.id == ids(|cases|) && c.linkedEval.None?
    ensures LinksSound(cases + [c], evals, ids)
  {
  }

  lemma {:induction false} CoverKeepsLinks(cases: seq<RedTeamCase>, evals: seq<SyncedEval>, needs: seq<Need>, stage: int,
                                           ids: nat -> string)
    requires LinksSound(cases, evals, ids)
    ensures LinksSound(Cover(cases, needs, stage, ids), evals, ids)
  {
    if needs != [] {
      CoverKeepsLinks(cases, evals, needs[..|needs| - 1], stage, ids);
      var before := Cover(cases, needs[..|needs| - 1], stage, ids);
      AppendKeepsLinks(before, evals, CaseFor(needs[|needs| - 1], stage, ids(|before|)), ids);
    }
  }

  lemma {:induction false} UnsourcedCountNothing(evals: seq<SyncedEval>, added: seq<string>, id: string)
    ensures CountFrom(evals + Unsourced(added), id) == CountFrom(evals, id)
  {
    if added == [] {
      assert evals + Unsourced(added) == evals;
    } else {
      var more := evals + Unsourced(added);
      UnsourcedCountNothing(evals, added[..|added| - 1], id);
      assert more[..|more| - 1] == evals + Unsourced(added[..|added| - 1]);
    }
  }

  lemma LinkingKeepsLinks(cases: seq<RedTeamCase>, evals: seq<SyncedEval>, i: nat, c: RedTeamCase, newId: string, ids: nat -> string)
    requires LinksSound(cases, evals, ids) && Injective(ids) && i < |cases| && cases[i].linkedEval.None?
    requires newId != "" && c.id == cases[i].id && c.linkedEval == Some(newId)
    ensures LinksSound(cases[i := c], evals + [SyncedEval(newId, Some(c.id))], ids)
  {
    var after, more := cases[i := c], evals + [SyncedEval(newId, Some(c.id))];
    assert more[|evals|] in more && more[..|evals|] == evals;
    forall n: nat ensures CountFrom(more, ids(n)) == if n < |after| && after[n].linkedEval.Some? then 1 else 0 {}
    forall j | 0 <= j < |after| && after[j].linkedEval.Some? ensures EvalExists(more, after[j].linkedEval.value) {
      if j != i {
        var e :| e in evals && e.evalId == cases[j].linkedEval.value;
        assert e in more;
      }
    }
  }

  lemma MoreEvalsKeepLinks(cases: seq<RedTeamCase>, evals: seq<SyncedEval>, added: seq<string>, ids: nat -> string)
    requires LinksSound(cases, evals, ids)
    ensures LinksSound(cases, evals + Unsourced(added), ids)
  {
    forall id: string ensures CountFrom(evals + Unsourced(added), id) == CountFrom(evals, id) { UnsourcedCountNothing(evals, added, id); }
    forall e | e in evals ensures e in evals + Unsourced(added) {}
  }

  lemma StatusKeepsLinks(cases: seq<RedTeamCase>, evals: seq<SyncedEval>, i: nat, status: CaseStatus, ids: nat -> string)
    requires LinksSound(cases, evals, ids) && i < |cases|
    ensures LinksSound(cases[i := cases[i].(status := status)], evals, ids)
  {
  }

  lemma SyncKeepsLinks(lab: Lab, id: string, newId: string, ids: nat -> string)
    requires LinksSound(lab.cases, lab.evals, ids) && Injective(ids) && newId != ""
    ensures var after := OrSame(SyncCase(lab, id, newId), lab); LinksSound(after.cases, after.evals, ids)
  {
    var i := CaseIndex(lab.cases, id);
    if i < |lab.cases| && lab.cases[i].linkedEval.None? {
      LinkingKeepsLinks(lab.cases, lab.evals, i, lab.cases[i].(linkedEval := Some(newId), status := SyncedToEval), newId, ids);
    }
  }

  lemma LabStepKeepsLinks(lab: Lab, s: LabStep, ids: nat -> string)
    requires LinksSound(lab.cases, lab.evals, ids) && Injective(ids) && (s.SyncStep? ==> s.newId != "")
    ensures LinksSound(TakeLabStep(lab, s, ids).cases, TakeLabStep(lab, s, ids).evals, ids)
  {
    match s
    case GenerateStep(stage) => CoverKeepsLinks(lab.cases, lab.evals, Needs(lab, stage), stage, ids);
    case CreateStep(need, stage) => AppendKeepsLinks(lab.cases, lab.evals, CaseFor(need, stage, ids(|lab.cases|)), ids);
    case ApproveStep(id) =>
      if CaseIndex(lab.cases, id) < |lab.cases| { StatusKeepsLinks(lab.cases, lab.evals, CaseIndex(lab.cases, id), ApprovedCase, ids); }
    case RejectStep(id) =>
      if CaseIndex(lab.cases, id) < |lab.cases| { StatusKeepsLinks(lab.cases, lab.evals, CaseIndex(lab.cases, id), RejectedCase, ids); }
    case SyncStep(id, newId) => SyncKeepsLinks(lab, id, newId, ids);
    case OtherStep(_, added) => MoreEvalsKeepLinks(lab.cases, lab.evals, added, ids);
  }

  /** However often cases are generated, approved, rejected and synced, each yields at most one EvalCase. */
  lemma {:induction false} EachCaseYieldsAtMostOneEvalCase(lab: Lab, steps: seq<LabStep>, ids: nat -> string)
    requires lab.cases == [] && lab.evals == [] && Injective(ids)
    requires forall s :: s in steps && s.SyncStep? ==> s.newId != ""
    ensures LinksSound(AfterLabSteps(lab, steps, ids).cases, AfterLabSteps(lab, steps, ids).evals, ids)
  {
    if steps != [] {
      EachCaseYieldsAtMostOneEvalCase(lab, steps[..|steps| - 1], ids);
      LabStepKeepsLinks(AfterLabSteps(lab, steps[..|steps| - 1], ids), steps[|steps| - 1], ids);
    }
  }

  /** Syncing twice changes nothing more, whatever identifier the second attempt would use. */
  lemma SyncTwiceIsOnce(lab: Lab, id: string, newId: string, again: string, ids: nat -> string)
    requires newId != "" && SyncCase(lab, id, newId).Ok?
    ensures var once := SyncCase(lab, id, newId).value; SyncCase(once, id, again) == Ok(once)
  {
    var i := CaseIndex(lab.cases, id);
    var once := SyncCase(lab, id, newId).value;
    assert once.cases[i].id == id;
    forall j | 0 <= j < i ensures once.cases[j].id != id { assert once.cases[j] == lab.cases[j]; }
    if once != lab { assert once.evals[|lab.evals|] in once.evals; }
  }

  // ----- the data set ------------------------------------------------------------------------------------

  function SyncedIds(cases: seq<RedTeamCase>): seq<string>
  {
    if cases == [] then []
    else
      var last := cases[|cases| - 1];
      SyncedIds(cases[..|cases| - 1]) + if last.status == SyncedToEval && IsLinked(last) then [last.linkedEval.value] else []
  }

  function SyncedWithoutDataset(lab: Lab): seq<string>
  {
    Filter(SyncedIds(lab.cases), id => !exists d :: d in lab.datasets && id in d)
  }

  function CreateDataset(lab: Lab): Result<Lab, LifecycleError>
  {
    var selected := Dedupe(SyncedIds(lab.cases));
    if selected == [] then Err(NothingSynced)
    else if exists id :: id in selected && !EvalExists(lab.evals, id) then Err(EvalNotFound)
    else Ok(lab.(datasets := lab.datasets + [selected]))
  }

  lemma {:induction false} SyncedIdsAre(cases: seq<RedTeamCase>, evals: seq<SyncedEval>, ids: nat -> string)
    requires forall c :: c in cases && c.linkedEval.Some? ==> EvalExists(evals, c.linkedEval.value)
    ensures forall id :: id in SyncedIds(cases) ==> id != "" && EvalExists(evals, id)
  {
    if cases != [] {
      assert cases == cases[..|cases| - 1] + [cases[|cases| - 1]];
      SyncedIdsAre(cases[..|cases| - 1], evals, ids);
    }
  }

  /**
    In every reachable session the default data set can be built exactly if some case is synced, and then no
    synced case is left outside a red-team data set.
   */
  lemma DatasetClosesSyncedGap(lab: Lab, ids: nat -> string)
    requires LinksSound(lab.cases, lab.evals, ids)
    ensures CreateDataset(lab).Ok? <==> SyncedIds(lab.cases) != []
    ensures CreateDataset(lab).Ok? ==> SyncedWithoutDataset(CreateDataset(lab).value) == []
  {
    var all := SyncedIds(lab.cases);
    SyncedIdsAre(lab.cases, lab.evals, ids);
    forall id: string ensures id in Dedupe(all) <==> id in all && id != "" { DedupeMembers(all, id); }
    if all != [] {
      assert all[0] in all && all[0] in Dedupe(all);
      var after := CreateDataset(lab).value;
      assert Dedupe(all) == after.datasets[|lab.datasets|];
      forall id | id in all ensures exists d :: d in after.datasets && id in d { assert Dedupe(all) in after.datasets; }
      EmptyIffNone(all, id => !exists d :: d in after.datasets && id in d);
    }
  }

  lemma {:induction false} SyncedIdsAreExact(cases: seq<RedTeamCase>, id: string)
    ensures id in SyncedIds(cases) <==>
      exists c :: c in cases && c.status == SyncedToEval && c.linkedEval == Some(id) && id != ""
  {
    if cases != [] {
      SyncedIdsAreExact(cases[..|cases| - 1], id);
      assert forall c :: c in cases <==> c in cases[..|cases| - 1] || c == cases[|cases| - 1];
    }
  }

  /** The data set lists the EvalCases of the synced cases, each once, and is added to the others. */
  lemma DatasetIs(lab: Lab, id: string)
    requires CreateDataset(lab).Ok?
    ensures var after := CreateDataset(lab).value;
      && |after.datasets| == |lab.datasets| + 1 && after == lab.(datasets := after.datasets) && lab.datasets <= after.datasets
      && var made := after.datasets[|lab.datasets|];
         && (id in made <==> exists c :: c in lab.cases && c.status == SyncedToEval && c.linkedEval == Some(id) && id != "")
         && (forall i, j :: 0 <= i < j < |made| ==> made[i] != made[j])
  {
    SyncedIdsAreExact(lab.cases, id);
    DedupeMembers(SyncedIds(lab.cases), id);
    DedupeIsDistinct(SyncedIds(lab.cases));
  }

  /** Everything that lets the coverage summary block. */
  predicate Blocks(lab: Lab, stage: int)
  {
    || MissingFindings(lab, stage) != {} || MissingNodes(lab) != {}
    || (exists c :: c in lab.cases && c.status == Draft && IsSevere(c.severity))
    || (exists c :: c in lab.cases && c.status == ApprovedCase && !IsLinked(c))
    || (exists c :: c in lab.cases && c.status == SyncedToEval && IsLinked(c) && !EvalExists(lab.evals, c.linkedEval.value))
    || SyncedWithoutDataset(lab) != []
  }

  /** Nothing is left to do about a case: a rejected one, a draft that is not severe, one linked or synced into a data set. */
  ghost predicate IsSettled(lab: Lab, c: RedTeamCase)
  {
    match c.status
    case RejectedCase => true
    case Draft => c.severity !in {High, Critical}
    case ApprovedCase => IsLinked(c)
    case SyncedToEval =>
      IsLinked(c) ==>
        EvalExists(lab.evals, c.linkedEval.value) && exists d :: d in lab.datasets && c.linkedEval.value in d
  }

  /** High-risk by policy, or by a failure mode: a critical one, or a high one unless the tier is the lowest. */
  ghost predicate IsRisky(lab: Lab, n: Node)
  {
    || n.severePolicy
    || exists m :: m in lab.modes && m.id in n.modes && (m.severity == Critical || (m.severity == High && !lab.lowTier))
  }

  lemma RiskyIs(lab: Lab, n: Node)
    ensures IsHighNode(lab, n) <==> IsRisky(lab, n)
  {
    if m :| m in lab.modes && m.id in n.modes && (m.severity == Critical || (m.severity == High && !lab.lowTier)) {
      assert IsHighMode(lab, m.id);
    }
  }

  /** A severe finding of the stage, or a high-risk node, that no active case names. */
  ghost predicate HasGap(lab: Lab, stage: int)
  {
    || (exists f :: f in lab.findings && CallsForCase(f, stage) &&
          forall c :: c in lab.cases && c.status != RejectedCase ==> f.id == "" || c.finding != Some(f.id))
    || (exists n :: n in lab.nodes && IsRisky(lab, n) &&
          forall c :: c in lab.cases && c.status != RejectedCase ==> n.id == "" || c.node != Some(n.id))
  }

  lemma GapsAre(lab: Lab, stage: int)
    ensures HasGap(lab, stage) <==> MissingFindings(lab, stage) != {} || MissingNodes(lab) != {}
  {
    forall f: Finding
      ensures (exists c :: c in lab.cases && IsActive(c) && Names(f.id, c.finding)) <==>
        !(forall c :: c in lab.cases && c.status != RejectedCase ==> f.id == "" || c.finding != Some(f.id))
    {
    }
    forall n: Node
      ensures HasCase(lab.cases, n.id) <==>
        !(forall c :: c in lab.cases && c.status != RejectedCase ==> n.id == "" || c.node != Some(n.id))
    {
    }
    forall n: Node ensures IsHighNode(lab, n) <==> IsRisky(lab, n) { RiskyIs(lab, n); }
    forall f | f in lab.findings && CallsForCase(f, stage) && !(exists c :: c in lab.cases && IsActive(c) && Names(f.id, c.finding))
      ensures f.id in MissingFindings(lab, stage)
    {
      assert IsEligible(f, stage);
    }
    forall n | n in lab.nodes && IsHighNode(lab, n) && !HasCase(lab.cases, n.id) ensures n.id in MissingNodes(lab) {}
    if MissingFindings(lab, stage) != {} {
      var id :| id in MissingFindings(lab, stage);
      var f :| f in lab.findings && IsEligible(f, stage) && f.id == id &&
        !(exists c :: c in lab.cases && IsActive(c) && Names(f.id, c.finding));
      assert CallsForCase(f, stage);
    }
    if MissingNodes(lab) != {} {
      var id :| id in MissingNodes(lab);
      var n :| n in lab.nodes && n.id == id && IsHighNode(lab, n) && !HasCase(lab.cases, id);
    }
  }

  /** The summary does not block exactly if there is no gap and every case is settled. */
  lemma SummaryIsClearIff(lab: Lab, stage: int)
    ensures !Blocks(lab, stage) <==> !HasGap(lab, stage) && forall c :: c in lab.cases ==> IsSettled(lab, c)
  {
    GapsAre(lab, stage);
    forall id: string
      ensures id in SyncedIds(lab.cases) <==>
        exists c :: c in lab.cases && c.status == SyncedToEval && c.linkedEval == Some(id) && id != ""
    {
      SyncedIdsAreExact(lab.cases, id);
    }
    EmptyIffNone(SyncedIds(lab.cases), id => !exists d :: d in lab.datasets && id in d);
    assert SyncedWithoutDataset(lab) == [] <==>
      forall c :: c in lab.cases && c.status == SyncedToEval && IsLinked(c) ==> exists d :: d in lab.datasets && c.linkedEval.value in d;
  }

  /**
    Once every case that is not rejected is synced and the data set is built, the summary blocks only on the gaps
    generation could not close.
   */
  lemma OnlyGapsBlockOnceSynced(lab: Lab, stage: int, ids: nat -> string)
    requires LinksSound(lab.cases, lab.evals, ids) && CreateDataset(lab).Ok?
    requires forall c :: c in lab.cases && IsActive(c) ==> c.status == SyncedToEval
    ensures Blocks(CreateDataset(lab).value, stage) <==> MissingFindings(lab, stage) != {} || MissingNodes(lab) != {}
  {
    var after := CreateDataset(lab).value;
    DatasetClosesSyncedGap(lab, ids);
    forall n: Node ensures IsHighNode(after, n) <==> IsHighNode(lab, n) { SameHighNode(lab, after, n); }
    assert MissingNodes(after) == MissingNodes(lab) && MissingFindings(after, stage) == MissingFindings(lab, stage);
  }

  // ----- the service -------------------------------------------------------------------------------------

  class RedTeamService {
    var lab: Lab
    const ids: nat -> string

    constructor (lab: Lab, ids: nat -> string)
      ensures this.lab == lab && this.ids == ids
    {
      this.lab, this.ids := lab, ids;
    }

    method CreateRedTeamCase(n: Need, stage: int)
      modifies this
      ensures lab == old(lab).(cases := old(lab).cases + [CaseFor(n, stage, ids(|old(lab).cases|))])
    {
      lab := lab.(cases := lab.cases + [CaseFor(n, stage, ids(|lab.cases|))]);
    }

    method CoverIfMissing(n: Need, stage: int)
      modifies this
      ensures lab == old(lab).(cases := CoverOne(old(lab).cases, n, stage, ids))
    {
      if !CaseExists(lab.cases, n) { CreateRedTeamCase(n, stage); }
    }

    /** Three loops, each looking at the cases as the earlier ones left them. */
    method GenerateRedTeamCases(stage: int) returns (created: seq<RedTeamCase>)
      modifies this
      ensures lab == Generate(old(lab), stage, ids)
      ensures lab.cases == old(lab).cases + created
    {
      ghost var before, a, b, c := lab.cases, FindingNeeds(lab.findings, stage), ModeNeeds(lab.modes, lab.nodes), WeakNeeds(lab.nodes);
      var n := |lab.cases|;
      CoverInParts(before, a, b, stage, ids);
      CoverInParts(before, a + b, c, stage, ids);
      CoverGrows(before, a + b + c, stage, ids);
      CoverFindings(stage);
      CoverModes(stage);
      CoverWeakNodes(stage);
      created := lab.cases[n..];
    }

    method CoverFindings(stage: int)
      modifies this
      ensures lab == old(lab).(cases := Cover(old(lab).cases, FindingNeeds(old(lab).findings, stage), stage, ids))
    {
      ghost var before := lab.cases;
      var findings := lab.findings;
      for i := 0 to |findings|
        invariant lab == old(lab).(cases := Cover(before, FindingNeeds(findings[..i], stage), stage, ids))
      {
        ghost var done := FindingNeeds(findings[..i], stage);
        assert findings[..i + 1][..i] == findings[..i] && done + [] == done;
        if IsEligible(findings[i], stage) {
          CoverNext(before, done, FindingNeed(findings[i].id, findings[i].severity), stage, ids);
          CoverIfMissing(FindingNeed(findings[i].id, findings[i].severity), stage);
        }
      }
      assert findings[..|findings|] == findings;
    }

    method CoverModes(stage: int)
      modifies this
      ensures lab == old(lab).(cases := Cover(old(lab).cases, ModeNeeds(old(lab).modes, old(lab).nodes), stage, ids))
    {
      ghost var before := lab.cases;
      var modes, nodes := lab.modes, lab.nodes;
      for i := 0 to |modes|
        invariant lab == old(lab).(cases := Cover(before, ModeNeeds(modes[..i], nodes), stage, ids))
      {
        ghost var done := ModeNeeds(modes[..i], nodes);
        assert modes[..i + 1][..i] == modes[..i] && done + [] == done;
        if IsSevere(modes[i].severity) {
          var targets := TargetsOf(nodes, modes[i].id);
          CoverInParts(before, done, TargetNeeds(modes[i], targets), stage, ids);
          CoverTargetsOf(modes[i], targets, stage);
        }
      }
      assert modes[..|modes|] == modes;
    }

    method CoverTargetsOf(m: FailureMode, targets: seq<Option<string>>, stage: int)
      modifies this
      ensures lab == old(lab).(cases := Cover(old(lab).cases, TargetNeeds(m, targets), stage, ids))
    {
      ghost var before := lab.cases;
      for j := 0 to |targets|
        invariant lab == old(lab).(cases := Cover(before, TargetNeeds(m, targets)[..j], stage, ids))
      {
        assert TargetNeeds(m, targets)[..j + 1] == TargetNeeds(m, targets)[..j] + [ModeNeed(m.id, targets[j], m.severity)];
        CoverNext(before, TargetNeeds(m, targets)[..j], ModeNeed(m.id, targets[j], m.severity), stage, ids);
        CoverIfMissing(ModeNeed(m.id, targets[j], m.severity), stage);
      }
      assert TargetNeeds(m, targets)[..|targets|] == TargetNeeds(m, targets);
    }

    method CoverWeakNodes(stage: int)
      modifies this
      ensures lab == old(lab).(cases := Cover(old(lab).cases, WeakNeeds(old(lab).nodes), stage, ids))
    {
      ghost var before := lab.cases;
      var nodes := lab.nodes;
      for i := 0 to |nodes|
        invariant lab == old(lab).(cases := Cover(before, WeakNeeds(nodes[..i]), stage, ids))
      {
        ghost var done := WeakNeeds(nodes[..i]);
        assert nodes[..i + 1][..i] == nodes[..i] && done + [] == done;
        if nodes[i].weakReview {
          CoverNext(before, done, WeakNeed(nodes[i].id), stage, ids);
          CoverIfMissing(WeakNeed(nodes[i].id), stage);
        }
      }
      assert nodes[..|nodes|] == nodes;
    }

    method ApproveRedTeamCase(id: string) returns (error: Option<LifecycleError>)
      modifies this
      ensures match ApproveCase(old(lab), id)
              case Err(e) => error == Some(e) && lab == old(lab)
              case Ok(after) => error == None && lab == after
    {
      var i := CaseIndex(lab.cases, id);
      if i == |lab.cases| { return Some(CaseNotFound); }
      if lab.cases[i].status == RejectedCase { return Some(RejectedStaysRejected); }
      lab := lab.(cases := lab.cases[i := lab.cases[i].(status := ApprovedCase)]);
      error := None;
    }

    method RejectRedTeamCase(id: string) returns (error: Option<LifecycleError>)
      modifies this
      ensures match RejectCase(old(lab), id)
              case Err(e) => error == Some(e) && lab == old(lab)
              case Ok(after) => error == None && lab == after
    {
      var i := CaseIndex(lab.cases, id);
      if i == |lab.cases| { return Some(CaseNotFound); }
      lab := lab.(cases := lab.cases[i := lab.cases[i].(status := RejectedCase)]);
      error := None;
    }

    method CreateRedTeamDataset() returns (reply: Result<seq<string>, LifecycleError>)
      modifies this
      ensures match CreateDataset(old(lab))
              case Err(e) => reply == Err(e) && lab == old(lab)
              case Ok(after) => lab == after && reply == Ok(after.datasets[|after.datasets| - 1])
    {
      var selected := Dedupe(SyncedIds(lab.cases));
      if selected == [] { return Err(NothingSynced); }
      if exists id :: id in selected && !EvalExists(lab.evals, id) { return Err(EvalNotFound); }
      lab := lab.(datasets := lab.datasets + [selected]);
      reply := Ok(selected);
    }

    method RedTeamCaseToEvalCase(id: string, newId: string) returns (reply: Result<string, LifecycleError>)
      modifies this
      ensures match SyncCase(old(lab), id, newId)
              case Err(e) => reply == Err(e) && lab == old(lab)
              case Ok(after) => lab == after && reply.Ok? && EvalExists(lab.evals, reply.value)
    {
      var i := CaseIndex(lab.cases, id);
      if i == |lab.cases| { return Err(CaseNotFound); }
      var c := lab.cases[i];
      if c.status != ApprovedCase && c.status != SyncedToEval { return Err(NotApproved); }
      if IsLinked(c) && EvalExists(lab.evals, c.linkedEval.value) { return Ok(c.linkedEval.value); }
      var made := SyncedEval(newId, Some(c.id));
      lab := lab.(evals := lab.evals + [made]);
      c := c.(linkedEval := Some(newId));
      c := c.(status := SyncedToEval);
      lab := lab.(cases := lab.cases[i := c]);
      assert lab.evals[|lab.evals| - 1] in lab.evals;
      reply := Ok(newId);
    }
  }

  lemma CoverNext(cases: seq<RedTeamCase>, done: seq<Need>, n: Need, stage: int, ids: nat -> string)
    ensures Cover(cases, done + [n], stage, ids) == CoverOne(Cover(cases, done, stage, ids), n, stage, ids)
  {
    assert (done + [n])[..|done|] == done;
  }
}
