/** What every attempt keeps, whatever the provider answers: no case is lost, only the last row
    can be unclean, and the meter agrees with the rows. */
module AttemptAccounting {
  import opened Contracts
  import opened CallBudget
  import opened LiveAttempt
  import Graph
  import Guardrail
  import FailClosed

  // ----- conservation of cases -----

  // The recorded rows, the case that was started and failed, if any, and the unattempted
  // ids are the frozen ids, in order.
  ghost predicate Conserved(a: Attempt, ids: seq<string>) {
    match a
    case Valid(_, cases, _, _) => Ids(cases) == ids
    case IntegrityFailure(_, cases, failed, rest) =>
      || (Ids(cases) + rest == ids && rest != [] && rest[0] == failed)
      || Ids(cases) + [failed] + rest == ids
    case BudgetExhausted(_, cases, rest) => Ids(cases) + rest == ids && rest != []
    case Contaminated(_, cases, _, _, _, rest) => Ids(cases) + rest == ids
    case CoverageViolation(_, cases, _, rest) => Ids(cases) + rest == ids
  }

  predicate Clean(row: CaseRow) {
    row.classification.Intervention? || row.classification.NonIntervention?
  }

  predicate AllClean(rows: seq<CaseRow>) {
    forall i :: 0 <= i < |rows| ==> Clean(rows[i])
  }

  // Every row but the last is clean; the last one is what the attempt's type says.
  ghost predicate OnlyLastUnclean(a: Attempt) {
    match a
    case Valid(_, cases, _, _) => AllClean(cases)
    case BudgetExhausted(_, cases, _) => AllClean(cases)
    case IntegrityFailure(_, cases, _, _) => AllClean(cases)
    case Contaminated(_, cases, id, _, _, _) =>
      cases != [] && AllClean(cases[..|cases| - 1]) && cases[|cases| - 1].classification.ContaminatedCase?
        && cases[|cases| - 1].id == id
    case CoverageViolation(_, cases, _, _) =>
      cases != [] && AllClean(cases[..|cases| - 1]) && cases[|cases| - 1].classification.CoverageViolated?
  }

  lemma IdsGrow(rows: seq<CaseRow>, row: CaseRow, ids: seq<string>, pos: nat)
    requires pos < |ids| && Ids(rows) == ids[..pos] && row.id == ids[pos]
    ensures Ids(rows + [row]) == ids[..pos + 1]
  {}

  lemma {:induction false} AttemptConserves(w: World, pre: Preflight, ceiling: nat, index: nat, pos: nat,
        rows: seq<CaseRow>, m: Meter)
    requires pos <= |pre.ids| && Ids(rows) == pre.ids[..pos]
    ensures Conserved(AttemptFrom(w, pre, ceiling, index, pos, rows, m).attempt, pre.ids)
    decreases |pre.ids| - pos
  {
    hide RunCase, Classify, SystemStages, SystemKinds, ViolationReasonOf, Interventions, CanStart, Ids;
    if pos == |pre.ids| {
      assert pre.ids[..pos] == pre.ids;
    } else {
      Resplit(pre.ids, pos);
      if CanStart(ceiling, m) && w.load(index, pos).Some? {
        var loaded := w.load(index, pos).value;
        var run := RunCase(w, pre.config, loaded.dossier, w.escape(index, pos), m);
        if run.result.Some? {
          var row := RowOf(pre.ids[pos], loaded.appropriateAction, run.result.value, m, run.meter);
          IdsGrow(rows, row, pre.ids, pos);
          AttemptConserves(w, pre, ceiling, index, pos + 1, rows + [row], run.meter);
        }
      }
    }
  }

  lemma Resplit(ids: seq<string>, pos: nat)
    requires pos < |ids|
    ensures ids[..pos] + ids[pos..] == ids && ids[..pos + 1] + ids[pos + 1..] == ids
    ensures ids[..pos] + [ids[pos]] + ids[pos + 1..] == ids
  {}

  lemma {:induction false} OnlyTheLastRowIsUnclean(w: World, pre: Preflight, ceiling: nat, index: nat, pos: nat,
        rows: seq<CaseRow>, m: Meter)
    requires pos <= |pre.ids| && AllClean(rows)
    ensures var a := AttemptFrom(w, pre, ceiling, index, pos, rows, m).attempt; OnlyLastUnclean(a) && a.index == index
    decreases |pre.ids| - pos
  {
    hide RunCase, Classify, SystemStages, SystemKinds, ViolationReasonOf, Interventions, CanStart;
    if pos < |pre.ids| && CanStart(ceiling, m) && w.load(index, pos).Some? {
      var loaded := w.load(index, pos).value;
      var run := RunCase(w, pre.config, loaded.dossier, w.escape(index, pos), m);
      if run.result.Some? {
        var row := RowOf(pre.ids[pos], loaded.appropriateAction, run.result.value, m, run.meter);
        if Clean(row) {
          OnlyTheLastRowIsUnclean(w, pre, ceiling, index, pos + 1, rows + [row], run.meter);
        } else {
          assert (rows + [row])[..|rows|] == rows;
        }
      }
    }
  }

  // ----- what a row says -----

  // A row reports a real screening: sound findings, the guardrail's decision on them, a proposal
  // wherever nothing failed, and whether the decision differs from it.
  ghost predicate Faithful(row: CaseRow) {
    && FailClosed.AllSound(row.findings)
    && row.decision == Guardrail.Decide(row.findings)
    && row.classification == Classify(row.findings)
    && (Clean(row) ==> row.proposed.Some?)
    && (row.overrode <==> row.proposed.Some? && row.proposed.value != row.decision)
    && row.providerCalls >= 0 && row.triageRetries >= 0 && row.synthesisRetries >= 0
  }

  lemma SynthesisLeavesATrace(d: Dossier, c: Graph.Config, t: Outcome<TriageResult>, s: Outcome<Proposal>)
    ensures Graph.Screen(d, c, t, s).proposal.Unavailable? ==> HasOrigin(Graph.Screen(d, c, t, s).findings, System)
    ensures Graph.Screen(d, c, t, s).decision == Guardrail.Decide(Graph.Screen(d, c, t, s).findings)
    ensures var r := Graph.Screen(d, c, t, s);
      r.guardrail.overridden <==> r.proposal.Available? && r.proposal.decision != r.decision
  {
    Graph.FindingsAreAccountedFor(d, c, t, s);
    var fs := Graph.Screen(d, c, t, s).findings;
    var extra := Graph.SynthesisContribution(s);
    if extra != [] {
      assert fs[|fs| - 1] == extra[0];
    }
  }

  lemma MeterOnlyGrows(w: World, m: Meter)
    ensures var after := AfterBoth(w, m);
      after.total >= m.total && after.retries.triage >= m.retries.triage
        && after.retries.synthesis >= m.retries.synthesis
  {
    hide Call;
    CallShape(w.triage, m.served, WRAPPER_MAX_ATTEMPTS_PER_CALL_SITE);
    CallShape(w.synthesis, AfterTriage(w, m).served, WRAPPER_MAX_ATTEMPTS_PER_CALL_SITE);
  }

  lemma UncleanIfSystem(fs: seq<Finding>)
    ensures HasOrigin(fs, System) ==> Classify(fs).ContaminatedCase? || Classify(fs).CoverageViolated?
  {}

  lemma RowIsFaithful(w: World, c: Graph.Config, d: Dossier, escape: Escape, m: Meter, id: string,
        action: Option<string>)
    requires FailClosed.Vetted(c.registry) && RunCase(w, c, d, escape, m).result.Some?
    ensures var run := RunCase(w, c, d, escape, m);
      Faithful(RowOf(id, action, run.result.value, m, run.meter))
  {
    var t, s := TriageExchange(w, m).outcome, SynthesisExchange(w, AfterTriage(w, m)).outcome;
    hide Graph.Screen, Call, AfterCall, Guardrail.Decide, FailClosed.AllSound, Classify;
    MeterOnlyGrows(w, m);
    SynthesisLeavesATrace(d, c, t, s);
    FailClosed.RunFindingsAreSound(d, c, t, s);
    UncleanIfSystem(Graph.Screen(d, c, t, s).findings);
  }

  // In a clean row every finding is a triage finding, and the case was an intervention
  // exactly when the final decision was not to approve.
  lemma CleanRowDecision(row: CaseRow)
    requires Faithful(row) && Clean(row)
    ensures row.classification.Intervention? <==> !row.decision.Approve?
    ensures forall i :: 0 <= i < |row.findings| ==> row.findings[i].origin == AiTriage
  {
    var fs := row.findings;
    forall i | 0 <= i < |fs| ensures fs[i].origin == AiTriage && fs[i].severity != Info {
      assert FailClosed.Sound(fs[i]);
    }
  }

  // A contaminated case is always escalated.
  lemma ContaminatedRowEscalates(row: CaseRow)
    requires Faithful(row) && row.classification.ContaminatedCase?
    ensures row.decision.Escalate?
  {
    FailClosed.SystemEscalates(row.findings);
  }

  // A contaminated row names at least one failing stage and one kind of error.
  lemma ContaminationIsExplained(row: CaseRow)
    requires Faithful(row) && row.classification.ContaminatedCase?
    ensures SystemStages(row.findings) != {} && SystemKinds(row.findings) != {}
  {
    var fs := row.findings;
    var i :| 0 <= i < |fs| && fs[i].origin == System;
    assert FailClosed.Sound(fs[i]);
    assert fs[i].check in SystemStages(fs) && fs[i].errorKind.value in SystemKinds(fs);
  }

  // With the three origins there are, a violation is always attributed: to a learned rule if one
  // fired, to a deterministic check otherwise. Without a deterministic finding nothing is attributed.
  lemma ViolationIsAttributed(fs: seq<Finding>)
    ensures ViolationReasonOf(fs).LearnedRulePresent? <==>
      exists i :: 0 <= i < |fs| && fs[i].origin == Deterministic && fs[i].check == LearnedRulesCheck
    ensures ViolationReasonOf(fs).UnclassifiedOrigin? <==> !Classify(fs).CoverageViolated?
  {}

  ghost predicate AllFaithful(rows: seq<CaseRow>) {
    forall i :: 0 <= i < |rows| ==> Faithful(rows[i])
  }

  lemma {:induction false} AttemptIsFaithful(w: World, pre: Preflight, ceiling: nat, index: nat, pos: nat,
        rows: seq<CaseRow>, m: Meter)
    requires pos <= |pre.ids| && AllFaithful(rows) && FailClosed.Vetted(pre.config.registry)
    ensures AllFaithful(AttemptFrom(w, pre, ceiling, index, pos, rows, m).attempt.cases)
    decreases |pre.ids| - pos
  {
    hide RunCase, Faithful, RowOf, SystemStages, SystemKinds, ViolationReasonOf, Interventions, CanStart,
      FailClosed.Vetted;
    if pos < |pre.ids| && CanStart(ceiling, m) && w.load(index, pos).Some? {
      var loaded := w.load(index, pos).value;
      var run := RunCase(w, pre.config, loaded.dossier, w.escape(index, pos), m);
      if run.result.Some? {
        var row := RowOf(pre.ids[pos], loaded.appropriateAction, run.result.value, m, run.meter);
        RowIsFaithful(w, pre.config, loaded.dossier, w.escape(index, pos), m, pre.ids[pos], loaded.appropriateAction);
        AttemptIsFaithful(w, pre, ceiling, index, pos + 1, rows + [row], run.meter);
      }
    }
  }

  function NonApproved(rows: seq<CaseRow>): nat {
    if rows == [] then 0 else NonApproved(rows[..|rows| - 1]) + if rows[|rows| - 1].decision.Approve? then 0 else 1
  }

  lemma {:induction false} InterventionsAreNonApprovals(rows: seq<CaseRow>)
    requires AllFaithful(rows) && AllClean(rows)
    ensures Interventions(rows) == NonApproved(rows) <= |rows|
  {
    if rows != [] {
      InterventionsAreNonApprovals(rows[..|rows| - 1]);
      CleanRowDecision(rows[|rows| - 1]);
    }
  }

  lemma {:induction false} ValidRate(w: World, pre: Preflight, ceiling: nat, index: nat, pos: nat, rows: seq<CaseRow>,
        m: Meter)
    requires pos <= |pre.ids|
    ensures var a := AttemptFrom(w, pre, ceiling, index, pos, rows, m).attempt;
      a.Valid? ==> a.k == Interventions(a.cases) && a.n == |a.cases|
    decreases |pre.ids| - pos
  {
    hide RunCase, Classify, SystemStages, SystemKinds, ViolationReasonOf, CanStart;
    if pos < |pre.ids| && CanStart(ceiling, m) && w.load(index, pos).Some? {
      var loaded := w.load(index, pos).value;
      var run := RunCase(w, pre.config, loaded.dossier, w.escape(index, pos), m);
      if run.result.Some? {
        var row := RowOf(pre.ids[pos], loaded.appropriateAction, run.result.value, m, run.meter);
        ValidRate(w, pre, ceiling, index, pos + 1, rows + [row], run.meter);
      }
    }
  }

  // A valid attempt covers every frozen case; its k is the number of cases that were not
  // finally approved.
  lemma ValidAttemptCounts(w: World, pre: Preflight, ceiling: nat, index: nat, m: Meter)
    requires FailClosed.Vetted(pre.config.registry)
    ensures var a := RunOf(w, pre, ceiling, index, m).attempt;
      a.Valid? ==> Ids(a.cases) == pre.ids && a.n == |pre.ids| && a.k == NonApproved(a.cases) <= a.n
  {
    hide AttemptFrom, Faithful;
    AttemptConserves(w, pre, ceiling, index, 0, [], m);
    OnlyTheLastRowIsUnclean(w, pre, ceiling, index, 0, [], m);
    AttemptIsFaithful(w, pre, ceiling, index, 0, [], m);
    ValidRate(w, pre, ceiling, index, 0, [], m);
    var a := RunOf(w, pre, ceiling, index, m).attempt;
    if a.Valid? {
      InterventionsAreNonApprovals(a.cases);
      assert |a.cases| == |Ids(a.cases)|;
    }
  }

  // ----- the meter -----

  // Requests beyond the retries: one per answered call site.
  function Answered(m: Meter, s: Stage): int {
    m.byStage.Of(s) - m.retries.Of(s)
  }

  // The counter's own consistency: totals add up and match what the provider served.
  ghost predicate Consistent(m: Meter, start: Meter) {
    && m.total >= start.total && m.total - start.total == m.served - start.served
    && m.total - start.total == m.byStage.Sum() - start.byStage.Sum()
  }

  // One case run: at most six requests; both call sites answered if it finished, and a site
  // not reached only after an escaping exception.
  lemma CaseUsage(w: World, c: Graph.Config, d: Dossier, escape: Escape, m: Meter)
    ensures var after := RunCase(w, c, d, escape, m).meter;
      && Consistent(after, m) && after.total <= m.total + MAX_CALLS_PER_CASE
      && Answered(m, SynthesisCall) <= Answered(after, SynthesisCall) <= Answered(m, SynthesisCall) + 1
      && Answered(m, TriageCall) <= Answered(after, TriageCall) <= Answered(m, TriageCall) + 1
      && Answered(after, SynthesisCall) - Answered(m, SynthesisCall)
         <= Answered(after, TriageCall) - Answered(m, TriageCall)
      && (RunCase(w, c, d, escape, m).result.Some? ==> Answered(after, SynthesisCall) == Answered(m, SynthesisCall) + 1)
  {
    hide Call, Graph.Screen;
    CallShape(w.triage, m.served, WRAPPER_MAX_ATTEMPTS_PER_CALL_SITE);
    CallShape(w.synthesis, AfterTriage(w, m).served, WRAPPER_MAX_ATTEMPTS_PER_CALL_SITE);
  }

  function ProviderCalls(rows: seq<CaseRow>): int {
    if rows == [] then 0 else ProviderCalls(rows[..|rows| - 1]) + rows[|rows| - 1].providerCalls
  }

  function TriageRetries(rows: seq<CaseRow>): int {
    if rows == [] then 0 else TriageRetries(rows[..|rows| - 1]) + rows[|rows| - 1].triageRetries
  }

  function SynthesisRetries(rows: seq<CaseRow>): int {
    if rows == [] then 0 else SynthesisRetries(rows[..|rows| - 1]) + rows[|rows| - 1].synthesisRetries
  }

  // The meter moved by exactly what the rows record, one answer per stage and row.
  ghost predicate MatchesRows(m: Meter, start: Meter, rows: seq<CaseRow>) {
    && m.total == start.total + ProviderCalls(rows)
    && m.retries.triage == start.retries.triage + TriageRetries(rows)
    && m.retries.synthesis == start.retries.synthesis + SynthesisRetries(rows)
    && Answered(m, TriageCall) == Answered(start, TriageCall) + |rows|
    && Answered(m, SynthesisCall) == Answered(start, SynthesisCall) + |rows|
  }

  // The meter is consistent, within the ceiling and within six requests per started case.
  ghost predicate WithinBudget(m: Meter, start: Meter, ceiling: nat, started: nat) {
    && Consistent(m, start) && (start.total <= ceiling ==> m.total <= ceiling)
    && m.total <= start.total + MAX_CALLS_PER_CASE * started
  }

  lemma RowJoins(rows: seq<CaseRow>, row: CaseRow, m: Meter, start: Meter, after: Meter, id: string,
        action: Option<string>, r: Graph.AgentResult)
    requires MatchesRows(m, start, rows) && row == RowOf(id, action, r, m, after)
    requires Answered(after, TriageCall) == Answered(m, TriageCall) + 1
    requires Answered(after, SynthesisCall) == Answered(m, SynthesisCall) + 1
    ensures MatchesRows(after, start, rows + [row])
  {
    assert (rows + [row])[..|rows|] == rows;
  }

  lemma StepWithinBudget(after: Meter, m: Meter, start: Meter, ceiling: nat, started: nat)
    requires WithinBudget(m, start, ceiling, started) && Consistent(after, m) && CanStart(ceiling, m)
    requires after.total <= m.total + MAX_CALLS_PER_CASE
    ensures WithinBudget(after, start, ceiling, started + 1)
  {}

  lemma MoreStarted(m: Meter, start: Meter, ceiling: nat, started: nat, most: nat)
    requires WithinBudget(m, start, ceiling, started) && started <= most
    ensures WithinBudget(m, start, ceiling, most)
  {}

  // A run that stopped before the last case because another one might not have fitted.
  ghost predicate OutOfBudget(r: AttemptRun, start: Meter, ceiling: nat, cases: nat) {
    |r.attempt.cases| < cases && !CanStart(ceiling, r.meter) && WithinBudget(r.meter, start, ceiling, |r.attempt.cases|)
  }

  // The ceiling is never exceeded; unless an exception escaped, the rows account for every
  // request; and an attempt that ran out of budget could not have started one more case.
  lemma {:induction false} AttemptUsage(w: World, pre: Preflight, ceiling: nat, index: nat, pos: nat,
        rows: seq<CaseRow>, m: Meter, start: Meter)
    requires pos <= |pre.ids| && |rows| == pos && MatchesRows(m, start, rows) && WithinBudget(m, start, ceiling, pos)
    ensures var r := AttemptFrom(w, pre, ceiling, index, pos, rows, m);
      && WithinBudget(r.meter, start, ceiling, |pre.ids|)
      && (!r.attempt.IntegrityFailure? ==> MatchesRows(r.meter, start, r.attempt.cases))
      && (r.attempt.BudgetExhausted? ==> OutOfBudget(r, start, ceiling, |pre.ids|))
    decreases |pre.ids| - pos
  {
    hide RunCase, Classify, SystemStages, SystemKinds, ViolationReasonOf, Interventions, CanStart, WithinBudget,
      MatchesRows, Consistent, Answered, RowOf;
    MoreStarted(m, start, ceiling, pos, |pre.ids|);
    if pos < |pre.ids| && CanStart(ceiling, m) && w.load(index, pos).Some? {
      var loaded := w.load(index, pos).value;
      var escape := w.escape(index, pos);
      var run := RunCase(w, pre.config, loaded.dossier, escape, m);
      CaseUsage(w, pre.config, loaded.dossier, escape, m);
      StepWithinBudget(run.meter, m, start, ceiling, pos);
      MoreStarted(run.meter, start, ceiling, pos + 1, |pre.ids|);
      if run.result.Some? {
        var row := RowOf(pre.ids[pos], loaded.appropriateAction, run.result.value, m, run.meter);
        RowJoins(rows, row, m, start, run.meter, pre.ids[pos], loaded.appropriateAction, run.result.value);
        AttemptUsage(w, pre, ceiling, index, pos + 1, rows + [row], run.meter, start);
      }
    }
  }
}
