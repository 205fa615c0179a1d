/** The audit trail: which nodes a run reports as run or skipped, the flow the generator expects
    for the documents present, and the matcher that compares the two. */
module Trajectory {
  import opened Contracts
  import opened Graph

  // ----- the generator's expectation -----

  function One(b: bool): nat {
    if b then 1 else 0
  }

  predicate ExpectedToRun(node: Node, hasReg: bool, hasCirc: bool, hasUbo: bool) {
    match node
    case IdentityCheck => One(hasReg) + One(hasCirc) + One(hasUbo) >= 2
    case OwnershipCheck => hasReg && hasUbo
    case AuthorityCheck => hasCirc && hasUbo
    case UboCheck => hasUbo
    case _ => true
  }

  function Expected(nodes: seq<Node>, running: bool, hasReg: bool, hasCirc: bool, hasUbo: bool): seq<Node> {
    if nodes == [] then []
    else if ExpectedToRun(nodes[0], hasReg, hasCirc, hasUbo) == running then
      [nodes[0]] + Expected(nodes[1..], running, hasReg, hasCirc, hasUbo)
    else Expected(nodes[1..], running, hasReg, hasCirc, hasUbo)
  }

  datatype Flow = Flow(trajectory: seq<Node>, skipped: seq<Node>)

  // expected_flow
  function ExpectedFlow(hasReg: bool, hasCirc: bool, hasUbo: bool): Flow {
    Flow([Extract, ResolveEntities] + Expected(DOCUMENT_CHECKS, true, hasReg, hasCirc, hasUbo)
        + [SynthesisNode, GuardrailNode, ActNode],
      Expected(DOCUMENT_CHECKS, false, hasReg, hasCirc, hasUbo))
  }

  // ----- the matcher -----

  // The last position of a node, as in a dict built from the enumerated trajectory; -1 if absent.
  function LastPosition(t: seq<Node>, node: Node): int {
    if t == [] then -1
    else if t[|t| - 1] == node then |t| - 1
    else LastPosition(t[..|t| - 1], node)
  }

  predicate Before(t: seq<Node>, x: Node, y: Node) {
    LastPosition(t, x) < LastPosition(t, y)
  }

  predicate Covers(trajectory: seq<Node>, skipped: seq<Node>, truth: Flow) {
    && (forall n :: n in truth.trajectory ==> n in trajectory)
    && (forall n :: n in truth.skipped ==> n in skipped)
    && (forall n :: n in skipped ==> n !in trajectory)
    && (forall n :: n in [Extract, ResolveEntities, SynthesisNode, GuardrailNode, ActNode] ==> n in trajectory)
  }

  predicate Ordered(trajectory: seq<Node>) {
    && Before(trajectory, Extract, ResolveEntities)
    && (forall n :: n in trajectory && n in DOCUMENT_CHECKS ==>
          Before(trajectory, ResolveEntities, n) && Before(trajectory, n, SynthesisNode))
    && Before(trajectory, SynthesisNode, GuardrailNode) && Before(trajectory, GuardrailNode, ActNode)
  }

  // trajectory_match
  predicate TrajectoryMatch(trajectory: seq<Node>, skipped: seq<Node>, truth: Flow) {
    Covers(trajectory, skipped, truth) && Ordered(trajectory)
  }

  // ----- what a run leaves behind -----

  lemma TrajectoryOfRun(d: Dossier, c: Config, triage: Outcome<TriageResult>, synthesis: Outcome<Proposal>)
    ensures var r := Screen(d, c, triage, synthesis);
      && r.trajectory == [Extract, ResolveEntities] + Running(CHECK_NODES, d)
         + [TriageNode, SynthesisNode, GuardrailNode, ActNode]
      && r.skipped == Skipping(CHECK_NODES, d)
      && r.results == ResultsOf(CHECK_NODES, d, c)
  {
    var s0 := Visited(Visited(INITIAL, Extract), ResolveEntities);
    Bookkeeping(s0, CHECK_NODES, d, c);
    ResultsKept(s0, CHECK_NODES, d, c);
    assert s0.trajectory == [Extract, ResolveEntities];
    var t := TriageStep(RunChecks(d, c), triage);
    assert t.trajectory == RunChecks(d, c).trajectory + [TriageNode];
    assert SynthesisStep(t, synthesis).trajectory == t.trajectory + [SynthesisNode];
    assert SynthesisStep(t, synthesis).skipped == RunChecks(d, c).skipped;
    assert SynthesisStep(t, synthesis).results == RunChecks(d, c).results;
  }

  // Both lists are the check nodes in order, split by whether they could run; in particular
  // every check node is in exactly one of them, with the flag of its result saying which.
  lemma {:induction false} RunOrSkipped(nodes: seq<Node>, d: Dossier, n: Node)
    ensures n in Running(nodes, d) <==> n in nodes && CanRun(n, d)
    ensures n in Skipping(nodes, d) <==> n in nodes && !CanRun(n, d)
    ensures |Running(nodes, d)| + |Skipping(nodes, d)| == |nodes|
  {
    if nodes != [] {
      RunOrSkipped(nodes[1..], d, n);
      assert n in nodes <==> n == nodes[0] || n in nodes[1..];
    }
  }

  lemma EachCheckIsRunOrSkipped(d: Dossier, c: Config, triage: Outcome<TriageResult>, synthesis: Outcome<Proposal>,
        i: nat)
    requires i < |CHECK_NODES|
    ensures var r := Screen(d, c, triage, synthesis);
      && |r.results| == |CHECK_NODES| && r.results[i].check == CHECK_NODES[i]
      && (CHECK_NODES[i] in r.trajectory <==> r.results[i].ran)
      && (CHECK_NODES[i] in r.skipped <==> !r.results[i].ran)
      && (!r.results[i].ran ==> r.results[i].findings == [])
  {
    TrajectoryOfRun(d, c, triage, synthesis);
    RunOrSkipped(CHECK_NODES, d, CHECK_NODES[i]);
    var running := Running(CHECK_NODES, d);
    var t := [Extract, ResolveEntities] + running + [TriageNode, SynthesisNode, GuardrailNode, ActNode];
    InMiddle([Extract, ResolveEntities], running, [TriageNode, SynthesisNode, GuardrailNode, ActNode], CHECK_NODES[i]);
  }

  lemma InMiddle(a: seq<Node>, b: seq<Node>, c: seq<Node>, n: Node)
    ensures n in a + b + c <==> n in a || n in b || n in c
  {}

  // The run skips what the generator expects it to skip, and runs the rest.
  lemma {:induction false} ExpectationAgrees(nodes: seq<Node>, d: Dossier)
    ensures Expected(nodes, true, d.registry.Some?, d.circular.Some?, d.ubo.Some?) == Running(nodes, d)
    ensures Expected(nodes, false, d.registry.Some?, d.circular.Some?, d.ubo.Some?) == Skipping(nodes, d)
  {
    if nodes != [] {
      ExpectationAgrees(nodes[1..], d);
    }
  }

  lemma {:induction false} PositionAfter(t: seq<Node>, n: Node, rest: seq<Node>)
    requires n !in rest
    ensures LastPosition(t + rest, n) == LastPosition(t, n)
    decreases |rest|
  {
    if rest == [] {
      assert t + rest == t;
    } else {
      var all := t + rest;
      assert all[..|all| - 1] == t + rest[..|rest| - 1];
      PositionAfter(t, n, rest[..|rest| - 1]);
    }
  }

  lemma {:induction false} PositionBounds(t: seq<Node>, n: Node)
    ensures n in t <==> LastPosition(t, n) >= 0
    ensures LastPosition(t, n) < |t| && (LastPosition(t, n) >= 0 ==> t[LastPosition(t, n)] == n)
  {
    if t != [] {
      PositionBounds(t[..|t| - 1], n);
      assert t == t[..|t| - 1] + [t[|t| - 1]];
    }
  }

  // A part of the trajectory that comes earlier stays before one that comes later.
  lemma PositionsOrdered(a: seq<Node>, b: seq<Node>, x: Node, y: Node)
    requires x in a && x !in b && y in b
    ensures Before(a + b, x, y)
  {
    PositionAfter(a, x, b);
    PositionBounds(a, x);
    PositionBounds(a + b, y);
    LastInSecond(a, b, y);
  }

  lemma {:induction false} LastInSecond(a: seq<Node>, b: seq<Node>, y: Node)
    requires y in b
    ensures LastPosition(a + b, y) >= |a|
    decreases |b|
  {
    var all := a + b;
    assert all[|all| - 1] == b[|b| - 1] && all[..|all| - 1] == a + b[..|b| - 1];
    if b[|b| - 1] != y {
      assert b == b[..|b| - 1] + [b[|b| - 1]];
      LastInSecond(a, b[..|b| - 1], y);
    }
  }

  // For every dossier and every model behaviour, the run matches the expectation computed from
  // the documents present alone.
  lemma RunMatchesExpectedFlow(d: Dossier, c: Config, triage: Outcome<TriageResult>, synthesis: Outcome<Proposal>)
    ensures var r := Screen(d, c, triage, synthesis);
      var flow := ExpectedFlow(d.registry.Some?, d.circular.Some?, d.ubo.Some?);
      && r.skipped == flow.skipped
      && TrajectoryMatch(r.trajectory, r.skipped, flow)
  {
    var r := Screen(d, c, triage, synthesis);
    var flow := ExpectedFlow(d.registry.Some?, d.circular.Some?, d.ubo.Some?);
    TrajectoryOfRun(d, c, triage, synthesis);
    ExpectationAgrees(DOCUMENT_CHECKS, d);
    LearnedRulesAlwaysRun(d);
    var running := Running(DOCUMENT_CHECKS, d);
    assert r.trajectory == FullTrajectory(running);
    forall n
      ensures n in running <==> n in DOCUMENT_CHECKS && CanRun(n, d)
      ensures n in r.skipped <==> n in DOCUMENT_CHECKS && !CanRun(n, d)
    {
      RunOrSkipped(DOCUMENT_CHECKS, d, n);
    }
    FullTrajectoryMatches(running, r.skipped, flow);
  }

  function FullTrajectory(running: seq<Node>): seq<Node> {
    [Extract, ResolveEntities] + running + [LearnedRulesCheck, TriageNode, SynthesisNode, GuardrailNode, ActNode]
  }

  lemma LearnedRulesAlwaysRun(d: Dossier)
    ensures Running(CHECK_NODES, d) == Running(DOCUMENT_CHECKS, d) + [LearnedRulesCheck]
    ensures Skipping(CHECK_NODES, d) == Skipping(DOCUMENT_CHECKS, d)
  {
    SplitJoins(DOCUMENT_CHECKS, [LearnedRulesCheck], d);
    assert Running([LearnedRulesCheck], d) == [LearnedRulesCheck];
    assert Skipping([LearnedRulesCheck], d) == [];
  }

  lemma {:induction false} SplitJoins(a: seq<Node>, b: seq<Node>, d: Dossier)
    ensures Running(a + b, d) == Running(a, d) + Running(b, d)
    ensures Skipping(a + b, d) == Skipping(a, d) + Skipping(b, d)
  {
    if a == [] {
      assert a + b == b;
    } else {
      assert (a + b)[0] == a[0] && (a + b)[1..] == a[1..] + b;
      SplitJoins(a[1..], b, d);
    }
  }

  const TAIL: seq<Node> := [LearnedRulesCheck, TriageNode, SynthesisNode, GuardrailNode, ActNode]

  lemma FullTrajectoryCovers(running: seq<Node>, skipped: seq<Node>, flow: Flow)
    requires forall n :: n in skipped ==> n in DOCUMENT_CHECKS && n !in running
    requires flow.skipped == skipped
    requires flow.trajectory == [Extract, ResolveEntities] + running + [SynthesisNode, GuardrailNode, ActNode]
    ensures Covers(FullTrajectory(running), skipped, flow)
  {
    var t := FullTrajectory(running);
    forall n ensures n in t <==> n in [Extract, ResolveEntities] || n in running || n in TAIL {
      InMiddle([Extract, ResolveEntities], running, TAIL, n);
    }
    forall n | n in flow.trajectory ensures n in t {
      InMiddle([Extract, ResolveEntities], running, [SynthesisNode, GuardrailNode, ActNode], n);
    }
  }

  lemma CheckIsInside(running: seq<Node>, n: Node)
    requires n in running && n in DOCUMENT_CHECKS
    requires forall k :: k in running ==> k in DOCUMENT_CHECKS
    ensures Before(FullTrajectory(running), ResolveEntities, n) && Before(FullTrajectory(running), n, SynthesisNode)
  {
    var t, head := FullTrajectory(running), [Extract, ResolveEntities];
    assert t == head + (running + TAIL) && t == (head + running) + TAIL;
    PositionsOrdered(head, running + TAIL, ResolveEntities, n);
    PositionsOrdered(head + running, TAIL, n, SynthesisNode);
  }

  lemma EndsAreOrdered(running: seq<Node>)
    requires forall k :: k in running ==> k in DOCUMENT_CHECKS
    ensures var t := FullTrajectory(running);
      Before(t, Extract, ResolveEntities) && Before(t, SynthesisNode, GuardrailNode)
        && Before(t, GuardrailNode, ActNode)
  {
    var t := FullTrajectory(running);
    assert t == [Extract] + ([ResolveEntities] + running + TAIL);
    PositionsOrdered([Extract], [ResolveEntities] + running + TAIL, Extract, ResolveEntities);
    var early := [Extract, ResolveEntities] + running + [LearnedRulesCheck, TriageNode, SynthesisNode];
    assert t == early + [GuardrailNode, ActNode] && t == (early + [GuardrailNode]) + [ActNode];
    assert early[|early| - 1] == SynthesisNode;
    PositionsOrdered(early, [GuardrailNode, ActNode], SynthesisNode, GuardrailNode);
    assert (early + [GuardrailNode])[|early|] == GuardrailNode;
    PositionsOrdered(early + [GuardrailNode], [ActNode], GuardrailNode, ActNode);
  }

  lemma FullTrajectoryMatches(running: seq<Node>, skipped: seq<Node>, flow: Flow)
    requires forall n :: n in running ==> n in DOCUMENT_CHECKS
    requires forall n :: n in skipped ==> n in DOCUMENT_CHECKS && n !in running
    requires flow.skipped == skipped
    requires flow.trajectory == [Extract, ResolveEntities] + running + [SynthesisNode, GuardrailNode, ActNode]
    ensures TrajectoryMatch(FullTrajectory(running), skipped, flow)
  {
    var t := FullTrajectory(running);
    FullTrajectoryCovers(running, skipped, flow);
    EndsAreOrdered(running);
    forall n | n in t && n in DOCUMENT_CHECKS
      ensures Before(t, ResolveEntities, n) && Before(t, n, SynthesisNode)
    {
      InMiddle([Extract, ResolveEntities], running, TAIL, n);
      CheckIsInside(running, n);
    }
  }

  // ----- what the matcher accepts and what it refuses -----

  // Some y comes after every x.
  ghost predicate Follows(t: seq<Node>, x: Node, y: Node) {
    exists j :: 0 <= j < |t| && t[j] == y && forall i :: 0 <= i < |t| && t[i] == x ==> i < j
  }

  lemma {:induction false} LastPositionIsLast(t: seq<Node>, n: Node, i: nat)
    requires i < |t| && t[i] == n
    ensures i <= LastPosition(t, n)
  {
    if t[|t| - 1] != n {
      LastPositionIsLast(t[..|t| - 1], n, i);
    }
  }

  lemma BeforeIff(t: seq<Node>, x: Node, y: Node)
    requires y in t
    ensures Before(t, x, y) <==> Follows(t, x, y)
  {
    PositionBounds(t, x);
    PositionBounds(t, y);
    forall i | 0 <= i < |t| && t[i] == x ensures i <= LastPosition(t, x) { LastPositionIsLast(t, x, i); }
    forall i | 0 <= i < |t| && t[i] == y ensures i <= LastPosition(t, y) { LastPositionIsLast(t, y, i); }
    if Follows(t, x, y) {
      var j :| 0 <= j < |t| && t[j] == y && forall i :: 0 <= i < |t| && t[i] == x ==> i < j;
      assert j <= LastPosition(t, y);
      assert LastPosition(t, x) >= 0 ==> LastPosition(t, x) < j;
    }
  }

  // What a trajectory and a skipped list must say, without positions.
  ghost predicate Conforms(t: seq<Node>, skipped: seq<Node>, truth: Flow) {
    && (forall n :: n in truth.trajectory ==> n in t)
    && (forall n :: n in truth.skipped ==> n in skipped)
    && (forall n :: n in skipped ==> n !in t)
    && Extract in t && ResolveEntities in t && SynthesisNode in t && GuardrailNode in t && ActNode in t
    && Follows(t, Extract, ResolveEntities)
    && (forall n :: n in t && n in {IdentityCheck, OwnershipCheck, AuthorityCheck, UboCheck, CompletenessCheck}
          ==> Follows(t, ResolveEntities, n) && Follows(t, n, SynthesisNode))
    && Follows(t, SynthesisNode, GuardrailNode) && Follows(t, GuardrailNode, ActNode)
  }

  lemma MatchIffConforms(t: seq<Node>, skipped: seq<Node>, truth: Flow)
    ensures TrajectoryMatch(t, skipped, truth) <==> Conforms(t, skipped, truth)
  {
    hide Before, Follows;
    if Covers(t, skipped, truth) || Conforms(t, skipped, truth) {
      FixedNodes(t, skipped, truth);
      BeforeIff(t, Extract, ResolveEntities);
      BeforeIff(t, SynthesisNode, GuardrailNode);
      BeforeIff(t, GuardrailNode, ActNode);
      forall n | n in t
        ensures Before(t, ResolveEntities, n) <==> Follows(t, ResolveEntities, n)
        ensures Before(t, n, SynthesisNode) <==> Follows(t, n, SynthesisNode)
      {
        BeforeIff(t, ResolveEntities, n);
        BeforeIff(t, n, SynthesisNode);
      }
    }
  }

  lemma FixedNodes(t: seq<Node>, skipped: seq<Node>, truth: Flow)
    requires Covers(t, skipped, truth) || Conforms(t, skipped, truth)
    ensures Extract in t && ResolveEntities in t && SynthesisNode in t && GuardrailNode in t && ActNode in t
  {
    hide Follows;
    var fixed := [Extract, ResolveEntities, SynthesisNode, GuardrailNode, ActNode];
    assert Extract in fixed && ResolveEntities in fixed && SynthesisNode in fixed && GuardrailNode in fixed;
    assert ActNode in fixed;
  }

  // An expected node that is absent, an expected skip that did not happen, a node reported both
  // skipped and run, and a document check after the last synthesis are refused.
  lemma MismatchesAreRefused(t: seq<Node>, skipped: seq<Node>, truth: Flow, n: Node)
    ensures n in truth.trajectory && n !in t ==> !TrajectoryMatch(t, skipped, truth)
    ensures n in truth.skipped && n !in skipped ==> !TrajectoryMatch(t, skipped, truth)
    ensures n in skipped && n in t ==> !TrajectoryMatch(t, skipped, truth)
    ensures n in DOCUMENT_CHECKS && (exists i :: 0 <= i < |t| && t[i] == n && SynthesisNode !in t[i..])
      ==> !TrajectoryMatch(t, skipped, truth)
  {
    MatchIffConforms(t, skipped, truth);
    DocumentChecksAre(n);
    forall i | 0 <= i < |t| && t[i] == n && SynthesisNode !in t[i..] ensures !Follows(t, n, SynthesisNode) {
      NothingFollows(t, n, SynthesisNode, i);
    }
  }

  lemma NothingFollows(t: seq<Node>, x: Node, y: Node, i: nat)
    requires i < |t| && t[i] == x && y !in t[i..]
    ensures !Follows(t, x, y)
  {
    forall j | i <= j < |t| ensures t[j] != y { assert t[j] == t[i..][j - i]; }
  }

  lemma DocumentChecksAre(n: Node)
    ensures n in DOCUMENT_CHECKS
      <==> n in {IdentityCheck, OwnershipCheck, AuthorityCheck, UboCheck, CompletenessCheck}
  {}

  lemma {:induction false} SameExpectation(nodes: seq<Node>, running: bool, a: bool, b: bool, c: bool, d: Dossier)
    requires forall n :: n in nodes ==> (ExpectedToRun(n, a, b, c) <==> CanRun(n, d))
    ensures Expected(nodes, running, a, b, c)
      == Expected(nodes, running, d.registry.Some?, d.circular.Some?, d.ubo.Some?)
  {
    hide ExpectedToRun, CanRun;
    if nodes != [] {
      ExpectedAgrees(nodes[0], d);
      SameExpectation(nodes[1..], running, a, b, c, d);
    }
  }

  lemma ExpectedAgrees(n: Node, d: Dossier)
    ensures ExpectedToRun(n, d.registry.Some?, d.circular.Some?, d.ubo.Some?) <==> CanRun(n, d)
  {}

  lemma {:induction false} InExpected(nodes: seq<Node>, running: bool, a: bool, b: bool, c: bool, n: Node)
    ensures n in Expected(nodes, running, a, b, c) <==> n in nodes && ExpectedToRun(n, a, b, c) == running
  {
    hide ExpectedToRun;
    if nodes != [] {
      InExpected(nodes[1..], running, a, b, c, n);
    }
  }

  // A run matches the flow expected for some set of documents exactly when that is the flow expected
  // for its own.
  lemma RunMatchesOnlyItsFlow(d: Dossier, c: Config, triage: Outcome<TriageResult>, synthesis: Outcome<Proposal>,
        hasReg: bool, hasCirc: bool, hasUbo: bool)
    ensures var r := Screen(d, c, triage, synthesis);
      TrajectoryMatch(r.trajectory, r.skipped, ExpectedFlow(hasReg, hasCirc, hasUbo))
      <==> ExpectedFlow(hasReg, hasCirc, hasUbo) == ExpectedFlow(d.registry.Some?, d.circular.Some?, d.ubo.Some?)
  {
    hide Screen, Ordered, Expected, ExpectedToRun, CanRun, DOCUMENT_CHECKS, CHECK_NODES, Running, Skipping;
    var r := Screen(d, c, triage, synthesis);
    var flow := ExpectedFlow(hasReg, hasCirc, hasUbo);
    RunMatchesExpectedFlow(d, c, triage, synthesis);
    if TrajectoryMatch(r.trajectory, r.skipped, flow) {
      forall n | n in DOCUMENT_CHECKS ensures ExpectedToRun(n, hasReg, hasCirc, hasUbo) <==> CanRun(n, d) {
        CheckIsAsExpected(d, c, triage, synthesis, flow, hasReg, hasCirc, hasUbo, n);
      }
      SameExpectation(DOCUMENT_CHECKS, true, hasReg, hasCirc, hasUbo, d);
      SameExpectation(DOCUMENT_CHECKS, false, hasReg, hasCirc, hasUbo, d);
    }
  }

  lemma CheckIsAsExpected(d: Dossier, c: Config, triage: Outcome<TriageResult>, synthesis: Outcome<Proposal>,
        flow: Flow, hasReg: bool, hasCirc: bool, hasUbo: bool, n: Node)
    requires flow == ExpectedFlow(hasReg, hasCirc, hasUbo) && n in DOCUMENT_CHECKS
    requires var r := Screen(d, c, triage, synthesis); Covers(r.trajectory, r.skipped, flow)
    ensures ExpectedToRun(n, hasReg, hasCirc, hasUbo) <==> CanRun(n, d)
  {
    hide Screen, Expected, ExpectedToRun, CanRun, Running, Skipping;
    var r := Screen(d, c, triage, synthesis);
    InExpected(DOCUMENT_CHECKS, true, hasReg, hasCirc, hasUbo, n);
    InExpected(DOCUMENT_CHECKS, false, hasReg, hasCirc, hasUbo, n);
    InMiddle([Extract, ResolveEntities], Expected(DOCUMENT_CHECKS, true, hasReg, hasCirc, hasUbo),
      [SynthesisNode, GuardrailNode, ActNode], n);
    TrajectoryOfRun(d, c, triage, synthesis);
    RunOrSkipped(CHECK_NODES, d, n);
    InMiddle([Extract, ResolveEntities], Running(CHECK_NODES, d),
      [TriageNode, SynthesisNode, GuardrailNode, ActNode], n);
  }
}
