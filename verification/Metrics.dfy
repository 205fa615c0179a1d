/** How a run is compared with a case's declared truth. */
module Metrics {
  import opened Contracts
  import opened Graph
  import opened Trajectory

  function DomainCodes(fs: seq<Finding>): set<Option<Code>> {
    set i | 0 <= i < |fs| && fs[i].origin != System :: Some(fs[i].code)
  }

  // agent_finding_codes: the domain codes of a run, or NONE.
  function AgentFindingCodes(fs: seq<Finding>): set<Option<Code>> {
    if DomainCodes(fs) == {} then {None} else DomainCodes(fs)
  }

  // A code is reported exactly when some finding that is not a system finding has it, and NONE
  // exactly when there is no such finding.
  lemma CodesAreReported(fs: seq<Finding>, code: Code)
    ensures Some(code) in AgentFindingCodes(fs)
      <==> exists i :: 0 <= i < |fs| && fs[i].origin != System && fs[i].code == code
    ensures None in AgentFindingCodes(fs) <==> forall i :: 0 <= i < |fs| ==> fs[i].origin == System
  {
    if i :| 0 <= i < |fs| && fs[i].origin != System {
      assert Some(fs[i].code) in DomainCodes(fs);
    }
  }

  datatype Truth = Truth(decision: Decision, flow: Flow, codes: set<Option<Code>>)

  predicate DecisionMatch(r: AgentResult, t: Truth) {
    r.decision == t.decision
  }

  predicate FindingMatch(r: AgentResult, t: Truth) {
    AgentFindingCodes(r.findings) == t.codes
  }
}
