/** The deterministic guardrail and the severity clamp of the triage layer. */
module Guardrail {
  import opened Contracts
  import Turkish

  datatype Action = OpenCase | EscalateCase
  datatype Finalization = ProposalGuarded | FailClosedNoProposal
  datatype GuardrailDecision = GuardrailDecision(
    decision: Decision, overridden: bool, actions: seq<Action>, mode: Finalization)

  predicate Has(findings: seq<Finding>, s: Severity) {
    exists i :: 0 <= i < |findings| && findings[i].severity == s
  }

  // decision_for_severities, given which severities are present
  function DecisionForPresent(unexplainable: bool, explainable: bool): Decision {
    if unexplainable then Escalate else if explainable then RequestMoreInfo else Approve
  }

  function Decide(findings: seq<Finding>): Decision {
    DecisionForPresent(Has(findings, Unexplainable), Has(findings, Explainable))
  }

  function Actions(d: Decision): seq<Action> {
    match d
    case Escalate => [OpenCase, EscalateCase]
    case RequestMoreInfo => [OpenCase]
    case Approve => []
  }

  function ApplyGuardrail(findings: seq<Finding>, proposal: Proposal): GuardrailDecision {
    var final := Decide(findings);
    match proposal
    case Unavailable => GuardrailDecision(final, false, Actions(final), FailClosedNoProposal)
    case Available(d, _) => GuardrailDecision(final, d != final, Actions(final), ProposalGuarded)
  }

  // The decision is the maximum over the findings: of two lists, the stricter one decides.
  lemma DecideJoins(a: seq<Finding>, b: seq<Finding>)
    ensures Decide(a + b) == if Rank(Decide(a)) >= Rank(Decide(b)) then Decide(a) else Decide(b)
  {
    forall s: Severity ensures Has(a + b, s) <==> Has(a, s) || Has(b, s) {
      HasJoins(a, b, s);
    }
  }

  lemma HasJoins(a: seq<Finding>, b: seq<Finding>, s: Severity)
    ensures Has(a + b, s) <==> Has(a, s) || Has(b, s)
  {
    if i :| 0 <= i < |a| && a[i].severity == s { assert (a + b)[i].severity == s; }
    if i :| 0 <= i < |b| && b[i].severity == s { assert (a + b)[|a| + i].severity == s; }
  }

  // ----- triage: the severity clamp -----

  // Anything but the one word, up to case and outer whitespace, is clamped to explainable.
  function TriageFinding(c: NovelConcern): Finding {
    var unexplainable := Turkish.Lower(Turkish.Strip(c.severity)) == "unexplainable";
    Finding(TriageNode, if unexplainable then X2 else X1, if unexplainable then Unexplainable else Explainable,
      AiTriage, None, c.detail, c.fields)
  }

  // The specification of triage_findings.
  function TriageFindings(r: TriageResult): seq<Finding> {
    seq(|r.concerns|, i requires 0 <= i < |r.concerns| => TriageFinding(r.concerns[i]))
  }

  method ConvertConcerns(r: TriageResult) returns (findings: seq<Finding>)
    ensures findings == TriageFindings(r)
  {
    findings := [];
    for i := 0 to |r.concerns|
      invariant findings == TriageFindings(r)[..i]
    {
      findings := findings + [TriageFinding(r.concerns[i])];
    }
  }

  // One finding per concern, in order: unexplainable exactly when the concern says that word, and
  // explainable otherwise, with the concern's own detail and fields.
  lemma ConcernsAreClamped(r: TriageResult, i: nat)
    requires i < |r.concerns|
    ensures |TriageFindings(r)| == |r.concerns|
    ensures var (f, c) := (TriageFindings(r)[i], r.concerns[i]);
      && f.origin == AiTriage && f.check == TriageNode && f.errorKind == None
      && f.detail == c.detail && f.fields == c.fields
      && (f.code == X2 && f.severity == Unexplainable <==> Turkish.Lower(Turkish.Strip(c.severity)) == "unexplainable")
      && (f.code == X1 && f.severity == Explainable <==> Turkish.Lower(Turkish.Strip(c.severity)) != "unexplainable")
  {
    hide Turkish.Lower, Turkish.Strip;
  }

  // Triage can only raise caution: no concern approves, and one concern already rules approval out.
  lemma TriageOnlyRaises(base: seq<Finding>, r: TriageResult)
    ensures Rank(Decide(base + TriageFindings(r))) >= Rank(Decide(base))
    ensures r.concerns != [] ==> !Decide(base + TriageFindings(r)).Approve?
    ensures Decide(TriageFindings(r)).Approve? <==> r.concerns == []
  {
    var fs := TriageFindings(r);
    DecideJoins(base, fs);
    if r.concerns != [] {
      assert fs[0].severity == Explainable || fs[0].severity == Unexplainable;
    }
  }
}
