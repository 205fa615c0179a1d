/** One attempt of a live session: every frozen case in order, under the call budget, until the
    cases are done or something ends the attempt. */
module LiveAttempt {
  import opened Contracts
  import opened CallBudget
  import Graph

  // ----- the world an attempt runs in -----

  // Where an exception escapes a case run, if it does: before, between or after the calls.
  datatype Escape = NoEscape | BeforeTriage | BetweenCalls | AfterSynthesis

  datatype LoadedCase = LoadedCase(dossier: Dossier, appropriateAction: Option<string>)

  // Provider replies by request number; loading and escapes by attempt index and position.
  datatype World = World(
    triage: nat -> Outcome<TriageResult>, synthesis: nat -> Outcome<Proposal>,
    load: (nat, nat) -> Option<LoadedCase>, escape: (nat, nat) -> Escape)

  datatype Preflight = Preflight(ids: seq<string>, config: Graph.Config)

  // ----- one case -----

  // The meter after a case run, and its result unless an exception escaped.
  datatype CaseRun = CaseRun(meter: Meter, result: Option<Graph.AgentResult>)

  function TriageExchange(w: World, m: Meter): Exchange<TriageResult> {
    Call(w.triage, m.served, WRAPPER_MAX_ATTEMPTS_PER_CALL_SITE)
  }

  function SynthesisExchange(w: World, m: Meter): Exchange<Proposal> {
    Call(w.synthesis, m.served, WRAPPER_MAX_ATTEMPTS_PER_CALL_SITE)
  }

  function AfterTriage(w: World, m: Meter): Meter {
    CallShape(w.triage, m.served, WRAPPER_MAX_ATTEMPTS_PER_CALL_SITE);
    AfterCall(m, TriageCall, TriageExchange(w, m).requests)
  }

  function AfterBoth(w: World, m: Meter): Meter {
    var t := AfterTriage(w, m);
    CallShape(w.synthesis, t.served, WRAPPER_MAX_ATTEMPTS_PER_CALL_SITE);
    AfterCall(t, SynthesisCall, SynthesisExchange(w, t).requests)
  }

  // run_agent through the wrapper.
  function RunCase(w: World, c: Graph.Config, d: Dossier, escape: Escape, m: Meter): CaseRun {
    match escape
    case BeforeTriage => CaseRun(m, None)
    case BetweenCalls => CaseRun(AfterTriage(w, m), None)
    case AfterSynthesis => CaseRun(AfterBoth(w, m), None)
    case NoEscape => CaseRun(AfterBoth(w, m),
      Some(Graph.Screen(d, c, TriageExchange(w, m).outcome, SynthesisExchange(w, AfterTriage(w, m)).outcome)))
  }

  method RunAgent(client: RetryingLLMClient, w: World, c: Graph.Config, d: Dossier, escape: Escape)
    returns (result: Option<Graph.AgentResult>)
    modifies client.inner, client.counter
    ensures CaseRun(client.Reading(), result) == RunCase(w, c, d, escape, old(client.Reading()))
  {
    hide Call, AfterCall, Graph.RunChecks, Graph.TriageStep, Graph.SynthesisStep, Graph.Conclude;
    var state := Graph.RunChecks(d, c);
    if escape.BeforeTriage? {
      return None;
    }
    var t := client.CompleteStructured(TriageSystem, w.triage);
    state := Graph.TriageStep(state, t.value);
    if escape.BetweenCalls? {
      return None;
    }
    var s := client.CompleteStructured(SynthesisSystem, w.synthesis);
    state := Graph.SynthesisStep(state, s.value);
    if escape.AfterSynthesis? {
      return None;
    }
    return Some(Graph.Conclude(state));
  }

  // ----- classification -----

  datatype Classification = Intervention | NonIntervention | ContaminatedCase | CoverageViolated

  predicate Permitted(o: Origin) {
    o == AiTriage || o == System
  }

  predicate HasForeign(fs: seq<Finding>) {
    exists i :: 0 <= i < |fs| && !Permitted(fs[i].origin)
  }

  // classify_case: a foreign origin wins over a system finding, that over a concern.
  function Classify(fs: seq<Finding>): Classification {
    if HasForeign(fs) then CoverageViolated
    else if HasOrigin(fs, System) then ContaminatedCase
    else if HasOrigin(fs, AiTriage) then Intervention
    else NonIntervention
  }

  datatype ViolationReason = LearnedRulePresent | DeterministicPresent | UnclassifiedOrigin

  // coverage_violation_reason
  function ViolationReasonOf(fs: seq<Finding>): ViolationReason {
    if exists i :: 0 <= i < |fs| && !Permitted(fs[i].origin) && fs[i].check == LearnedRulesCheck then LearnedRulePresent
    else if
      HasForeign(fs) && forall i :: 0 <= i < |fs| && !Permitted(fs[i].origin) ==> fs[i].origin == Deterministic
    then DeterministicPresent
    else UnclassifiedOrigin
  }

  // ----- rows -----

  datatype CaseRow = CaseRow(
    id: string, appropriateAction: Option<string>, decision: Decision, classification: Classification,
    findings: seq<Finding>, providerCalls: int, triageRetries: int, synthesisRetries: int,
    overrode: bool, proposed: Option<Decision>)

  function RowOf(id: string, action: Option<string>, r: Graph.AgentResult, before: Meter, after: Meter): CaseRow {
    CaseRow(id, action, r.decision, Classify(r.findings), r.findings, after.total - before.total,
      after.retries.triage - before.retries.triage, after.retries.synthesis - before.retries.synthesis,
      r.guardrail.overridden, if r.proposal.Available? then Some(r.proposal.decision) else None)
  }

  function Ids(rows: seq<CaseRow>): seq<string> {
    seq(|rows|, i requires 0 <= i < |rows| => rows[i].id)
  }

  function Interventions(rows: seq<CaseRow>): nat {
    if rows == [] then 0
    else Interventions(rows[..|rows| - 1]) + if rows[|rows| - 1].classification.Intervention? then 1 else 0
  }

  // ----- attempts -----

  // Only a valid attempt has a rate; every other one names what it left unattempted.
  datatype Attempt =
    | Valid(index: nat, cases: seq<CaseRow>, k: nat, n: nat)
    | Contaminated(index: nat, cases: seq<CaseRow>, contaminatedId: string, failingStages: set<Node>,
        errorKinds: set<ErrorKind>, notAttempted: seq<string>)
    | BudgetExhausted(index: nat, cases: seq<CaseRow>, notAttempted: seq<string>)
    | CoverageViolation(index: nat, cases: seq<CaseRow>, reason: ViolationReason, notAttempted: seq<string>)
    | IntegrityFailure(index: nat, cases: seq<CaseRow>, failedId: string, notAttempted: seq<string>)

  datatype AttemptRun = AttemptRun(attempt: Attempt, meter: Meter)

  function SystemStages(fs: seq<Finding>): set<Node> {
    set i | 0 <= i < |fs| && fs[i].origin == System :: fs[i].check
  }

  function SystemKinds(fs: seq<Finding>): set<ErrorKind> {
    set i | 0 <= i < |fs| && fs[i].origin == System && fs[i].errorKind.Some? :: fs[i].errorKind.value
  }

  predicate CanStart(ceiling: nat, m: Meter) {
    ceiling - m.total >= MAX_CALLS_PER_CASE
  }

  // The rest of an attempt from a position on, with the rows so far.
  function AttemptFrom(w: World, pre: Preflight, ceiling: nat, index: nat, pos: nat, rows: seq<CaseRow>,
        m: Meter): AttemptRun
    requires pos <= |pre.ids|
    decreases |pre.ids| - pos
  {
    if pos == |pre.ids| then AttemptRun(Valid(index, rows, Interventions(rows), |rows|), m)
    else if !CanStart(ceiling, m) then AttemptRun(BudgetExhausted(index, rows, pre.ids[pos..]), m)
    else match w.load(index, pos)
      case None => AttemptRun(IntegrityFailure(index, rows, pre.ids[pos], pre.ids[pos..]), m)
      case Some(loaded) =>
        var run := RunCase(w, pre.config, loaded.dossier, w.escape(index, pos), m);
        match run.result
        case None => AttemptRun(IntegrityFailure(index, rows, pre.ids[pos], pre.ids[pos + 1..]), run.meter)
        case Some(r) =>
          var row := RowOf(pre.ids[pos], loaded.appropriateAction, r, m, run.meter);
          match row.classification
          case CoverageViolated =>
            AttemptRun(CoverageViolation(index, rows + [row], ViolationReasonOf(r.findings), pre.ids[pos + 1..]),
              run.meter)
          case ContaminatedCase =>
            AttemptRun(Contaminated(index, rows + [row], row.id, SystemStages(r.findings), SystemKinds(r.findings),
              pre.ids[pos + 1..]), run.meter)
          case _ => AttemptFrom(w, pre, ceiling, index, pos + 1, rows + [row], run.meter)
  }

  function RunOf(w: World, pre: Preflight, ceiling: nat, index: nat, m: Meter): AttemptRun {
    AttemptFrom(w, pre, ceiling, index, 0, [], m)
  }

  // _run_one_attempt
  method RunOneAttempt(index: nat, w: World, pre: Preflight, client: RetryingLLMClient) returns (attempt: Attempt)
    modifies client.inner, client.counter
    ensures AttemptRun(attempt, client.Reading()) == RunOf(w, pre, client.counter.ceiling, index, old(client.Reading()))
  {
    hide RunCase, Classify, SystemStages, SystemKinds, ViolationReasonOf, Interventions;
    var ceiling := client.counter.ceiling;
    ghost var whole := RunOf(w, pre, ceiling, index, client.Reading());
    var cases: seq<CaseRow> := [];
    for pos := 0 to |pre.ids|
      invariant whole == AttemptFrom(w, pre, ceiling, index, pos, cases, client.Reading())
    {
      if !client.counter.CanReserve(MAX_CALLS_PER_CASE) {
        return BudgetExhausted(index, cases, pre.ids[pos..]);
      }
      var loaded := w.load(index, pos);
      if loaded.None? {
        return IntegrityFailure(index, cases, pre.ids[pos], pre.ids[pos..]);
      }
      var before := client.Reading();
      var result := RunAgent(client, w, pre.config, loaded.value.dossier, w.escape(index, pos));
      if result.None? {
        return IntegrityFailure(index, cases, pre.ids[pos], pre.ids[pos + 1..]);
      }
      var findings := result.value.findings;
      var row := RowOf(pre.ids[pos], loaded.value.appropriateAction, result.value, before, client.Reading());
      cases := cases + [row];
      match row.classification {
        case CoverageViolated =>
          return CoverageViolation(index, cases, ViolationReasonOf(findings), pre.ids[pos + 1..]);
        case ContaminatedCase =>
          return Contaminated(index, cases, row.id, SystemStages(findings), SystemKinds(findings), pre.ids[pos + 1..]);
        case _ =>
      }
    }
    return Valid(index, cases, Interventions(cases), |cases|);
  }

}
