/** What the rows of an attempt say about the provider's answers, traced from the counter value each
    case began at, and what a contaminated attempt names as its cause. */
module RowReports {
  import opened Contracts
  import opened CallBudget
  import opened LiveAttempt
  import opened AttemptAccounting
  import opened LiveSession
  import Graph
  import Guardrail

  // ----- one row -----

  // What the two calls of a case brought that began at this counter value.
  function TriageAnswer(w: World, m: Meter): Outcome<TriageResult> {
    TriageExchange(w, m).outcome
  }

  function SynthesisAnswer(w: World, m: Meter): Outcome<Proposal> {
    SynthesisExchange(w, AfterTriage(w, m)).outcome
  }

  // The row of a case holds its findings, the decision on them, the decision the model proposed if
  // it proposed one, whether these differ, and the requests made for it.
  ghost predicate Reports(row: CaseRow, w: World, c: Graph.Config, d: Dossier, m: Meter) {
    var t, s := TriageAnswer(w, m), SynthesisAnswer(w, m);
    && row.findings == Graph.BaseFindings(d, c) + Graph.TriageContribution(t) + Graph.SynthesisContribution(s)
    && row.decision == Guardrail.Decide(row.findings)
    && (forall p :: row.proposed == Some(p) <==> s.Returned? && s.value.Available? && s.value.decision == p)
    && (row.overrode <==> row.proposed.Some? && row.proposed.value != row.decision)
    && row.triageRetries == TriageExchange(w, m).requests - 1
    && row.synthesisRetries == SynthesisExchange(w, AfterTriage(w, m)).requests - 1
    && row.providerCalls == row.triageRetries + row.synthesisRetries + 2
  }

  lemma ScreenReports(d: Dossier, c: Graph.Config, t: Outcome<TriageResult>, s: Outcome<Proposal>)
    ensures var r := Graph.Screen(d, c, t, s);
      && (r.proposal.Available? <==> s.Returned? && s.value.Available?)
      && (r.proposal.Available? ==> r.proposal == s.value)
      && (r.guardrail.overridden <==> r.proposal.Available? && r.proposal.decision != r.decision)
  {
    hide Graph.RunChecks, Guardrail.Decide;
  }

  // Whenever a case finishes, its row reports the answers it was given.
  lemma RowReportsItsCase(w: World, c: Graph.Config, d: Dossier, escape: Escape, m: Meter, id: string,
        action: Option<string>)
    requires RunCase(w, c, d, escape, m).result.Some?
    ensures var run := RunCase(w, c, d, escape, m);
      var row := RowOf(id, action, run.result.value, m, run.meter);
      Reports(row, w, c, d, m) && row.id == id && row.appropriateAction == action && run.meter == AfterBoth(w, m)
  {
    var t, s := TriageAnswer(w, m), SynthesisAnswer(w, m);
    hide Graph.Screen, Call, Guardrail.Decide, Classify, Graph.TriageContribution, Graph.SynthesisContribution,
      Graph.BaseFindings;
    CallShape(w.triage, m.served, WRAPPER_MAX_ATTEMPTS_PER_CALL_SITE);
    CallShape(w.synthesis, AfterTriage(w, m).served, WRAPPER_MAX_ATTEMPTS_PER_CALL_SITE);
    Graph.FindingsAreAccountedFor(d, c, t, s);
    ScreenReports(d, c, t, s);
  }

  // ----- the rows of an attempt -----

  // The counter value at which the case at a position begins, when the attempt began at m.
  function MeterAt(w: World, m: Meter, pos: nat): Meter {
    if pos == 0 then m else AfterBoth(w, MeterAt(w, m, pos - 1))
  }

  ghost predicate RowAt(row: CaseRow, w: World, pre: Preflight, index: nat, pos: nat, start: Meter)
    requires pos < |pre.ids|
  {
    && w.load(index, pos).Some? && row.id == pre.ids[pos]
    && row.appropriateAction == w.load(index, pos).value.appropriateAction
    && Reports(row, w, pre.config, w.load(index, pos).value.dossier, MeterAt(w, start, pos))
  }

  ghost predicate RowsAt(rows: seq<CaseRow>, w: World, pre: Preflight, index: nat, start: Meter) {
    |rows| <= |pre.ids| && forall i :: 0 <= i < |rows| ==> RowAt(rows[i], w, pre, index, i, start)
  }

  lemma {:induction false} AttemptReports(w: World, pre: Preflight, ceiling: nat, index: nat, pos: nat,
        rows: seq<CaseRow>, m: Meter, start: Meter)
    requires pos == |rows| <= |pre.ids| && m == MeterAt(w, start, pos) && RowsAt(rows, w, pre, index, start)
    ensures RowsAt(AttemptFrom(w, pre, ceiling, index, pos, rows, m).attempt.cases, w, pre, index, start)
    decreases |pre.ids| - pos
  {
    hide RunCase, Reports, RowOf, Classify, SystemStages, SystemKinds, ViolationReasonOf, Interventions, CanStart,
      AfterBoth;
    if pos < |pre.ids| && CanStart(ceiling, m) && w.load(index, pos).Some? {
      var loaded := w.load(index, pos).value;
      var run := RunCase(w, pre.config, loaded.dossier, w.escape(index, pos), m);
      if run.result.Some? {
        var row := RowOf(pre.ids[pos], loaded.appropriateAction, run.result.value, m, run.meter);
        RowReportsItsCase(w, pre.config, loaded.dossier, w.escape(index, pos), m, pre.ids[pos],
          loaded.appropriateAction);
        AttemptReports(w, pre, ceiling, index, pos + 1, rows + [row], run.meter, start);
      }
    }
  }

  // ----- what ended an attempt -----

  // A contaminated attempt names exactly the stages and the kinds of the system findings of its last
  // row; a coverage violation is attributed to a learned rule exactly if one fired in it.
  ghost predicate NamesItsCause(a: Attempt) {
    a.Contaminated? || a.CoverageViolation? ==>
      && a.cases != []
      && var fs := a.cases[|a.cases| - 1].findings;
      && (a.Contaminated? ==>
            && (forall n :: n in a.failingStages
                  <==> exists i :: 0 <= i < |fs| && fs[i].origin == System && fs[i].check == n)
            && (forall k :: k in a.errorKinds
                  <==> exists i :: 0 <= i < |fs| && fs[i].origin == System && fs[i].errorKind == Some(k)))
      && (a.CoverageViolation? ==>
            (a.reason.LearnedRulePresent?
             <==> exists i :: 0 <= i < |fs| && fs[i].origin == Deterministic && fs[i].check == LearnedRulesCheck))
  }

  lemma ContaminationNamesItsCause(a: Attempt, fs: seq<Finding>)
    requires a.Contaminated? && a.cases != [] && a.cases[|a.cases| - 1].findings == fs
    requires a.failingStages == SystemStages(fs) && a.errorKinds == SystemKinds(fs)
    ensures NamesItsCause(a)
  {}

  lemma ViolationNamesItsCause(a: Attempt, fs: seq<Finding>)
    requires a.CoverageViolation? && a.cases != [] && a.cases[|a.cases| - 1].findings == fs
    requires a.reason == ViolationReasonOf(fs)
    ensures NamesItsCause(a)
  {}

  lemma {:induction false} AttemptNamesItsCause(w: World, pre: Preflight, ceiling: nat, index: nat, pos: nat,
        rows: seq<CaseRow>, m: Meter)
    requires pos <= |pre.ids|
    ensures NamesItsCause(AttemptFrom(w, pre, ceiling, index, pos, rows, m).attempt)
    decreases |pre.ids| - pos
  {
    hide RunCase, Classify, SystemStages, SystemKinds, ViolationReasonOf, Interventions, CanStart, NamesItsCause;
    var a := AttemptFrom(w, pre, ceiling, index, pos, rows, m).attempt;
    if pos < |pre.ids| && CanStart(ceiling, m) && w.load(index, pos).Some? {
      var loaded := w.load(index, pos).value;
      var run := RunCase(w, pre.config, loaded.dossier, w.escape(index, pos), m);
      if run.result.Some? {
        var row := RowOf(pre.ids[pos], loaded.appropriateAction, run.result.value, m, run.meter);
        match row.classification {
          case ContaminatedCase => ContaminationNamesItsCause(a, row.findings);
          case CoverageViolated => ViolationNamesItsCause(a, row.findings);
          case _ => AttemptNamesItsCause(w, pre, ceiling, index, pos + 1, rows + [row], run.meter);
        }
      } else {
        NothingToName(a);
      }
    } else {
      NothingToName(a);
    }
  }

  lemma NothingToName(a: Attempt)
    requires !a.Contaminated? && !a.CoverageViolation?
    ensures NamesItsCause(a)
  {}

  // ----- every attempt of a session -----

  // The attempt began at some counter value, its rows are traced from there, and it names its cause.
  ghost predicate Traced(a: Attempt, w: World, pre: Preflight) {
    NamesItsCause(a) && exists start :: RowsAt(a.cases, w, pre, a.index, start)
  }

  ghost predicate AllTraced(attempts: seq<Attempt>, w: World, pre: Preflight) {
    forall i :: 0 <= i < |attempts| ==> Traced(attempts[i], w, pre)
  }

  lemma AttemptIsTraced(w: World, pre: Preflight, ceiling: nat, index: nat, m: Meter)
    ensures Traced(RunOf(w, pre, ceiling, index, m).attempt, w, pre)
  {
    hide AttemptFrom, NamesItsCause, RowAt;
    AttemptNamesItsCause(w, pre, ceiling, index, 0, [], m);
    AttemptReports(w, pre, ceiling, index, 0, [], m, m);
    OnlyTheLastRowIsUnclean(w, pre, ceiling, index, 0, [], m);
  }

  lemma {:induction false} SessionFromTraced(w: World, pre: Preflight, pol: Policy, ceiling: nat, index: nat,
        attempts: seq<Attempt>, used: nat, m: Meter)
    requires AllTraced(attempts, w, pre)
    ensures AllTraced(SessionFrom(w, pre, pol, ceiling, index, attempts, used, m).attempts, w, pre)
    decreases pol.maxAttempts + 1 - index
  {
    hide RunOf, Traced, CountValid;
    if index <= pol.maxAttempts {
      var run := RunOf(w, pre, ceiling, index, m);
      var made := attempts + [run.attempt];
      AttemptIsTraced(w, pre, ceiling, index, m);
      if run.attempt.Valid? && CountValid(made) != pol.target {
        SessionFromTraced(w, pre, pol, ceiling, index + 1, made, used, run.meter);
      } else if run.attempt.Contaminated? && used + 1 <= pol.replacements && index != pol.maxAttempts {
        SessionFromTraced(w, pre, pol, ceiling, index + 1, made, used + 1, run.meter);
      }
    }
  }

  // In every attempt of every session, whatever the provider answers, every row reports the answers
  // of the two calls made for its case, and the attempt names what ended it.
  lemma SessionRowsReportTheirCases(w: World, pre: Preflight, pol: Policy, ceiling: nat, m: Meter)
    ensures AllTraced(SessionOf(w, pre, pol, ceiling, m).attempts, w, pre)
  {
    SessionFromTraced(w, pre, pol, ceiling, 1, [], 0, m);
  }
}
