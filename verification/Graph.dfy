/** The screening graph: a fixed linear sequence of nodes over an append-only state. The two
    model calls are outcomes chosen by whoever runs the graph: a value, a known model error, or
    any other exception. */
module Graph {
  import opened Contracts
  import opened Guardrail
  import Checks
  import Rules

  datatype AgentState = AgentState(
    trajectory: seq<Node>, skipped: seq<Node>, results: seq<CheckResult>, findings: seq<Finding>,
    triage: Option<TriageResult>, proposal: Proposal)

  datatype CaseRecord = CaseRecord(decision: Decision, actions: seq<Action>, escalated: bool)

  datatype AgentResult = AgentResult(
    decision: Decision, trajectory: seq<Node>, skipped: seq<Node>, guardrail: GuardrailDecision,
    proposal: Proposal, triage: Option<TriageResult>, findings: seq<Finding>, results: seq<CheckResult>,
    record: CaseRecord)

  // What a run is configured with besides the dossier.
  datatype Config = Config(emap: EntityMap, registry: Rules.Registry_, rules: seq<Rules.CandidateRule>)

  // ----- bookkeeping -----

  function Ran(s: AgentState, node: Node, findings: seq<Finding>): AgentState {
    s.(trajectory := s.trajectory + [node],
       results := s.results + [CheckResult(node, true, findings)],
       findings := s.findings + findings)
  }

  function Skipped(s: AgentState, node: Node): AgentState {
    s.(skipped := s.skipped + [node], results := s.results + [CheckResult(node, false, [])])
  }

  function Visited(s: AgentState, node: Node): AgentState {
    s.(trajectory := s.trajectory + [node])
  }

  // ----- the check nodes -----

  // Whether the documents a check needs are present.
  predicate CanRun(node: Node, d: Dossier) {
    match node
    case IdentityCheck => Checks.Present(d.registry) + Checks.Present(d.circular) + Checks.Present(d.ubo) >= 2
    case OwnershipCheck => d.registry.Some? && d.ubo.Some?
    case AuthorityCheck => d.circular.Some? && d.ubo.Some?
    case UboCheck => d.ubo.Some?
    case _ => true
  }

  function FindingsOf(node: Node, d: Dossier, c: Config): seq<Finding>
    requires CanRun(node, d)
  {
    match node
    case IdentityCheck => Checks.CheckIdentity(d, c.emap)
    case OwnershipCheck => Checks.CheckOwnership(d.registry.value, d.ubo.value, c.emap)
    case AuthorityCheck => Checks.CheckAuthority(d.circular.value, d.ubo.value, c.emap)
    case UboCheck => Checks.CheckUbo(d.ubo.value, c.emap)
    case CompletenessCheck => Checks.CheckCompleteness(d)
    case LearnedRulesCheck => Rules.LearnedFindings(c.registry, c.rules, d)
    case _ => []
  }

  function CheckNode(s: AgentState, node: Node, d: Dossier, c: Config): AgentState {
    if CanRun(node, d) then Ran(s, node, FindingsOf(node, d, c)) else Skipped(s, node)
  }

  const DOCUMENT_CHECKS: seq<Node> :=
    [IdentityCheck, OwnershipCheck, AuthorityCheck, UboCheck, CompletenessCheck]

  const CHECK_NODES: seq<Node> := DOCUMENT_CHECKS + [LearnedRulesCheck]

  function RunNodes(s: AgentState, nodes: seq<Node>, d: Dossier, c: Config): AgentState
    decreases |nodes|
  {
    if nodes == [] then s else RunNodes(CheckNode(s, nodes[0], d, c), nodes[1..], d, c)
  }

  // ----- the model nodes -----

  function SystemFinding(node: Node, kind: ErrorKind): Finding {
    Finding(node, T0, Unexplainable, System, Some(kind), "", [])
  }

  // An LLM error carries its own kind; anything else is unexpected.
  function Classify<T>(o: Outcome<T>): ErrorKind
    requires !o.Returned?
  {
    match o
    case RaisedLLMError(kind) => kind
    case RaisedOther => UnexpectedException
  }

  function TriageStep(s: AgentState, o: Outcome<TriageResult>): AgentState {
    var v := Visited(s, TriageNode);
    match o
    case Returned(r) => v.(triage := Some(r), findings := s.findings + TriageFindings(r))
    case RaisedLLMError(_) => v.(findings := s.findings + [SystemFinding(TriageNode, Classify(o))])
    case RaisedOther => v.(findings := s.findings + [SystemFinding(TriageNode, Classify(o))])
  }

  function SynthesisUnavailable(s: AgentState, kind: ErrorKind): AgentState {
    Visited(s, SynthesisNode).(proposal := Unavailable, findings := s.findings + [SystemFinding(SynthesisNode, kind)])
  }

  // A model that answers may not declare itself unavailable.
  function SynthesisStep(s: AgentState, o: Outcome<Proposal>): AgentState {
    match o
    case Returned(Unavailable) => SynthesisUnavailable(s, SchemaInvalid)
    case Returned(p) => Visited(s, SynthesisNode).(proposal := p)
    case RaisedLLMError(_) => SynthesisUnavailable(s, Classify(o))
    case RaisedOther => SynthesisUnavailable(s, Classify(o))
  }

  function ActOn(g: GuardrailDecision): CaseRecord {
    CaseRecord(g.decision, g.actions, EscalateCase in g.actions)
  }

  // ----- the run -----

  const INITIAL := AgentState([], [], [], [], None, Unavailable)

  // Everything before the first model call.
  function RunChecks(d: Dossier, c: Config): AgentState {
    RunNodes(Visited(Visited(INITIAL, Extract), ResolveEntities), CHECK_NODES, d, c)
  }

  // Everything after the second.
  function Conclude(s: AgentState): AgentResult {
    var g := ApplyGuardrail(s.findings, s.proposal);
    AgentResult(g.decision, s.trajectory + [GuardrailNode, ActNode], s.skipped, g, s.proposal, s.triage,
      s.findings, s.results, ActOn(g))
  }

  function Screen(d: Dossier, c: Config, triage: Outcome<TriageResult>, synthesis: Outcome<Proposal>): AgentResult {
    Conclude(SynthesisStep(TriageStep(RunChecks(d, c), triage), synthesis))
  }

  // ----- what the check nodes leave behind -----

  function NodeFindings(node: Node, d: Dossier, c: Config): seq<Finding> {
    if CanRun(node, d) then FindingsOf(node, d, c) else []
  }

  function AllFindings(nodes: seq<Node>, d: Dossier, c: Config): seq<Finding> {
    if nodes == [] then [] else NodeFindings(nodes[0], d, c) + AllFindings(nodes[1..], d, c)
  }

  function Running(nodes: seq<Node>, d: Dossier): seq<Node> {
    if nodes == [] then []
    else if CanRun(nodes[0], d) then [nodes[0]] + Running(nodes[1..], d)
    else Running(nodes[1..], d)
  }

  function Skipping(nodes: seq<Node>, d: Dossier): seq<Node> {
    if nodes == [] then []
    else if CanRun(nodes[0], d) then Skipping(nodes[1..], d)
    else [nodes[0]] + Skipping(nodes[1..], d)
  }

  function ResultsOf(nodes: seq<Node>, d: Dossier, c: Config): seq<CheckResult> {
    seq(|nodes|, i requires 0 <= i < |nodes| =>
      CheckResult(nodes[i], CanRun(nodes[i], d), NodeFindings(nodes[i], d, c)))
  }

  lemma {:induction false} Bookkeeping(s: AgentState, nodes: seq<Node>, d: Dossier, c: Config)
    ensures var t := RunNodes(s, nodes, d, c);
      && t.findings == s.findings + AllFindings(nodes, d, c)
      && t.trajectory == s.trajectory + Running(nodes, d)
      && t.skipped == s.skipped + Skipping(nodes, d)
      && t.triage == s.triage && t.proposal == s.proposal
    decreases |nodes|
  {
    hide CheckNode, NodeFindings, CanRun;
    if nodes != [] {
      var rest := nodes[1..];
      OneNode(s, nodes[0], d, c);
      Bookkeeping(CheckNode(s, nodes[0], d, c), rest, d, c);
      Regroup(s.findings, NodeFindings(nodes[0], d, c), AllFindings(rest, d, c));
      Regroup(s.trajectory, if CanRun(nodes[0], d) then [nodes[0]] else [], Running(rest, d));
      Regroup(s.skipped, if CanRun(nodes[0], d) then [] else [nodes[0]], Skipping(rest, d));
    }
  }

  lemma OneNode(s: AgentState, node: Node, d: Dossier, c: Config)
    ensures var t := CheckNode(s, node, d, c);
      && t.findings == s.findings + NodeFindings(node, d, c)
      && t.trajectory == s.trajectory + (if CanRun(node, d) then [node] else [])
      && t.skipped == s.skipped + (if CanRun(node, d) then [] else [node])
      && t.triage == s.triage && t.proposal == s.proposal
  {
    hide CanRun, FindingsOf;
  }

  lemma Regroup<T>(a: seq<T>, b: seq<T>, c: seq<T>)
    ensures a + b + c == a + (b + c)
  {}

  lemma {:induction false} ResultsKept(s: AgentState, nodes: seq<Node>, d: Dossier, c: Config)
    ensures RunNodes(s, nodes, d, c).results == s.results + ResultsOf(nodes, d, c)
    decreases |nodes|
  {
    if nodes == [] {
      assert ResultsOf(nodes, d, c) == [];
    } else {
      ResultsKept(CheckNode(s, nodes[0], d, c), nodes[1..], d, c);
      assert ResultsOf(nodes, d, c)
        == [CheckResult(nodes[0], CanRun(nodes[0], d), NodeFindings(nodes[0], d, c))] + ResultsOf(nodes[1..], d, c);
    }
  }

  // ----- the findings of a run -----

  function TriageContribution(o: Outcome<TriageResult>): seq<Finding> {
    if o.Returned? then TriageFindings(o.value) else [SystemFinding(TriageNode, Classify(o))]
  }

  function SynthesisContribution(o: Outcome<Proposal>): seq<Finding> {
    if !o.Returned? then [SystemFinding(SynthesisNode, Classify(o))]
    else if o.value.Unavailable? then [SystemFinding(SynthesisNode, SchemaInvalid)]
    else []
  }

  function BaseFindings(d: Dossier, c: Config): seq<Finding> {
    AllFindings(CHECK_NODES, d, c)
  }

  // A run's findings are exactly the check findings, the triage findings and the T0s, in
  // order, and its decision is the guardrail's reading of them.
  lemma FindingsAreAccountedFor(d: Dossier, c: Config, triage: Outcome<TriageResult>, synthesis: Outcome<Proposal>)
    ensures var r := Screen(d, c, triage, synthesis);
      && r.findings == BaseFindings(d, c) + TriageContribution(triage) + SynthesisContribution(synthesis)
      && r.decision == Decide(r.findings)
  {
    Bookkeeping(Visited(Visited(INITIAL, Extract), ResolveEntities), CHECK_NODES, d, c);
    var s := RunChecks(d, c);
    assert s.findings == BaseFindings(d, c);
    var t := TriageStep(s, triage);
    assert t.findings == s.findings + TriageContribution(triage);
    assert SynthesisStep(t, synthesis).findings == t.findings + SynthesisContribution(synthesis);
  }
}
