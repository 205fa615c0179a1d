/** Concrete worlds over clean dossiers: a provider that always fails, one that never has a concern and
    one that has them in the second attempt only; and a registry whose template hides a system finding. */
module Witnesses {
  import opened Contracts
  import opened CallBudget
  import opened LiveAttempt
  import opened LiveSession
  import opened SessionAccounting
  import opened Graph
  import opened Generator
  import opened Isolation
  import FailClosed
  import GeneratedCases
  import Guardrail
  import ProducerConsumer
  import PublicSummary
  import Rules
  import SessionJson
  import SessionPublication
  import Statistics
  import SummaryAcceptance
  import SummaryTheorems

  // ----- a clean dossier -----

  // Two holders at fifty percent each.
  function SomeChoices(): Choices {
    Choices(["a", "b"], [50.0, 50.0], "head", 0, "0000000000", 0.0, 800000, 20, 30, 700, 799000, 1)
  }

  lemma SomeBase()
    ensures Drawable(SomeChoices()) && IsBase(CleanBase(SomeChoices()))
  {
    var ch := SomeChoices();
    assert PAIR_LEADS[0] == 50.0;
    assert forall i :: 0 <= i < |ch.taxId| ==> ch.taxId[i] == '0';
    forall i | 0 <= i < |ch.people| ensures Checks.Filled(ch.people[i]) {
      InkAtTheEnd(ch.people[i]);
    }
    CleanBaseIsBase(ch);
  }

  function SomePlan(): Plan {
    SomeBase();
    CleanBase(SomeChoices())
  }

  lemma SomePlanIsBase()
    ensures IsBase(SomePlan())
  {
    SomeBase();
  }

  lemma CleanFindings(p: Plan, m: EntityMap)
    requires IsBase(p) && Reflexive(m)
    ensures BaseFindings(ToDossier(p), Cfg(m)) == []
  {
    hide IsBase, ToDossier, DOCUMENT_CHECKS, NodeFindings;
    BaseIsClean(p, m);
    GeneratedCases.AllFindingsJoins(DOCUMENT_CHECKS, [LearnedRulesCheck], ToDossier(p), Cfg(m));
    NoLearnedFindings(ToDossier(p), m);
  }

  lemma NoLearnedFindings(d: Dossier, m: EntityMap)
    ensures AllFindings([LearnedRulesCheck], d, Cfg(m)) == []
  {
    assert [LearnedRulesCheck][1..] == [];
  }

  // ----- a provider that always fails -----

  function Failing(d: Dossier): World {
    World(_ => RaisedLLMError(SchemaInvalid), _ => RaisedLLMError(SchemaInvalid),
      (_, _) => Some(LoadedCase(d, None)), (_, _) => NoEscape)
  }

  // Neither call is retried, and the case is contaminated.
  lemma FailedCase(d: Dossier, c: Config, m: Meter)
    requires BaseFindings(d, c) == []
    ensures var run := RunCase(Failing(d), c, d, NoEscape, m);
      && run.meter.total == m.total + 2 && run.result.Some?
      && LiveAttempt.Classify(run.result.value.findings).ContaminatedCase?
  {
    hide Screen;
    var t, s := RaisedLLMError(SchemaInvalid), RaisedLLMError(SchemaInvalid);
    assert Call(Failing(d).triage, m.served, 3) == Exchange(t, 1);
    var n := AfterTriage(Failing(d), m);
    assert Call(Failing(d).synthesis, n.served, 3) == Exchange(s, 1);
    FindingsAreAccountedFor(d, c, t, s);
    var fs := Screen(d, c, t, s).findings;
    assert fs == [SystemFinding(TriageNode, SchemaInvalid), SystemFinding(SynthesisNode, SchemaInvalid)];
    assert fs[0].origin == System;
  }

  lemma FailedAttempt(d: Dossier, pre: Preflight, ceiling: nat, index: nat, m: Meter)
    requires BaseFindings(d, pre.config) == [] && pre.ids != [] && CanStart(ceiling, m)
    ensures var run := RunOf(Failing(d), pre, ceiling, index, m);
      run.attempt.Contaminated? && run.meter.total == m.total + 2
  {
    hide RunCase, LiveAttempt.Classify, BaseFindings, CanStart;
    FailedCase(d, pre.config, m);
  }

  lemma {:induction false} FailedSessionFrom(d: Dossier, pre: Preflight, pol: Policy, ceiling: nat, index: nat,
        attempts: seq<Attempt>, used: nat, m: Meter)
    requires BaseFindings(d, pre.config) == [] && pre.ids != [] && pol.target >= 1
    requires pol.maxAttempts == pol.target + pol.replacements && used <= pol.replacements && index == used + 1
    requires m.total == 2 * used && 2 * pol.replacements + MAX_CALLS_PER_CASE <= ceiling
    ensures var run := SessionFrom(Failing(d), pre, pol, ceiling, index, attempts, used, m);
      run.terminal.OperationalFailureExhausted? && run.replacements == pol.replacements + 1
    decreases pol.replacements - used
  {
    hide RunOf, BaseFindings, CountValid;
    var run := RunOf(Failing(d), pre, ceiling, index, m);
    FailedAttempt(d, pre, ceiling, index, m);
    if used < pol.replacements {
      FailedSessionFrom(d, pre, pol, ceiling, index + 1, attempts + [run.attempt], used + 1, run.meter);
    }
  }

  // With a clean dossier in every case and a provider that never answers by the schema, a session of
  // any policy is exhausted, one replacement beyond the number allowed.
  lemma FailedSessionOvershoots(p: Plan, m: EntityMap, ids: seq<string>, pol: Policy, ceiling: nat, start: Meter)
    requires IsBase(p) && Reflexive(m) && ids != [] && IsFresh(start)
    requires pol.target >= 1 && pol.maxAttempts == pol.target + pol.replacements
    requires 2 * pol.replacements + MAX_CALLS_PER_CASE <= ceiling
    ensures var run := SessionOf(Failing(ToDossier(p)), Preflight(ids, Cfg(m)), pol, ceiling, start);
      run.terminal.OperationalFailureExhausted? && run.replacements == pol.replacements + 1
  {
    hide IsBase, ToDossier, BaseFindings, Cfg;
    CleanFindings(p, m);
    FailedSessionFrom(ToDossier(p), Preflight(ids, Cfg(m)), pol, ceiling, 1, [], 0, start);
  }

  // The shipped session then uses three replacements of two.
  lemma ShippedSessionMayOvershoot(m: EntityMap, ids: seq<string>, start: Meter)
    requires Reflexive(m) && ids != [] && IsFresh(start)
    ensures var w := Failing(ToDossier(SomePlan()));
      var run := SessionOf(w, Preflight(ids, Cfg(m)), SESSION_POLICY, SESSION_CALL_CEILING, start);
      run.terminal.OperationalFailureExhausted? && run.replacements == 3 > SESSION_POLICY.replacements
  {
    hide IsBase, ToDossier, SomePlan, SessionOf;
    SomePlanIsBase();
    FailedSessionOvershoots(SomePlan(), m, ids, SESSION_POLICY, SESSION_CALL_CEILING, start);
  }

  // The replacements stay within the number allowed exactly in the sessions that are not exhausted.
  lemma WithinReplacementsIff(w: World, pre: Preflight, pol: Policy, ceiling: nat, m: Meter)
    requires pol.target >= 1 && pol.maxAttempts == pol.target + pol.replacements
    ensures var run := SessionOf(w, pre, pol, ceiling, m);
      run.replacements <= pol.replacements <==> !run.terminal.OperationalFailureExhausted?
  {
    hide SessionOf;
    SessionOutcome(w, pre, pol, ceiling, m);
  }

  // ----- a provider that always answers -----

  // It raises the given concern in the requests chosen.
  function Answering(d: Dossier, concern: NovelConcern, concerned: nat -> bool): World {
    World((i: nat) => Returned(TriageResult(if concerned(i) then [concern] else [])),
      _ => Returned(Available(Approve, "")),
      (_, _) => Some(LoadedCase(d, None)), (_, _) => NoEscape)
  }

  lemma AnsweredCase(d: Dossier, concern: NovelConcern, concerned: nat -> bool, c: Config, m: Meter)
    requires BaseFindings(d, c) == []
    ensures var run := RunCase(Answering(d, concern, concerned), c, d, NoEscape, m);
      && run.meter.total == m.total + 2 && run.meter.served == m.served + 2 && run.result.Some?
      && LiveAttempt.Classify(run.result.value.findings)
         == if concerned(m.served) then Intervention else NonIntervention
  {
    hide Screen;
    var w := Answering(d, concern, concerned);
    var r := TriageResult(if concerned(m.served) then [concern] else []);
    var t: Outcome<TriageResult>, s: Outcome<Proposal> := Returned(r), Returned(Available(Approve, ""));
    assert Call(w.triage, m.served, 3) == Exchange(t, 1);
    var n := AfterTriage(w, m);
    assert Call(w.synthesis, n.served, 3) == Exchange(s, 1);
    FindingsAreAccountedFor(d, c, t, s);
    ConcernsAreClassified(r);
    assert Screen(d, c, t, s).findings == Guardrail.TriageFindings(r);
  }

  lemma ConcernsAreClassified(r: TriageResult)
    requires |r.concerns| <= 1
    ensures LiveAttempt.Classify(Guardrail.TriageFindings(r))
      == if r.concerns == [] then NonIntervention else Intervention
  {
    var fs := Guardrail.TriageFindings(r);
    if r.concerns != [] {
      assert fs[0].origin == AiTriage;
    }
  }

  // An attempt whose requests are all concerned, or all not, intervenes in every case or in none.
  lemma {:induction false} AnsweredAttemptFrom(d: Dossier, concern: NovelConcern, concerned: nat -> bool, b: bool,
        pre: Preflight, ceiling: nat, index: nat, pos: nat, rows: seq<CaseRow>, m: Meter)
    requires BaseFindings(d, pre.config) == [] && pos <= |pre.ids|
    requires m.total + 2 * (|pre.ids| - pos) + 4 <= ceiling
    requires forall i: nat :: m.served <= i < m.served + 2 * (|pre.ids| - pos) ==> concerned(i) == b
    ensures var run := AttemptFrom(Answering(d, concern, concerned), pre, ceiling, index, pos, rows, m);
      && run.attempt.Valid? && run.attempt.k == Interventions(rows) + (if b then |pre.ids| - pos else 0)
      && run.meter.total == m.total + 2 * (|pre.ids| - pos) && run.meter.served == m.served + 2 * (|pre.ids| - pos)
    decreases |pre.ids| - pos
  {
    hide RunCase, LiveAttempt.Classify, BaseFindings, RowOf, Interventions;
    if pos < |pre.ids| {
      var run := RunCase(Answering(d, concern, concerned), pre.config, d, NoEscape, m);
      AnsweredCase(d, concern, concerned, pre.config, m);
      var row := RowOf(pre.ids[pos], None, run.result.value, m, run.meter);
      RowClass(pre.ids[pos], run.result.value, m, run.meter);
      OneMoreIntervention(rows, row);
      AnsweredAttemptFrom(d, concern, concerned, b, pre, ceiling, index, pos + 1, rows + [row], run.meter);
    }
  }

  lemma OneMoreIntervention(rows: seq<CaseRow>, row: CaseRow)
    ensures Interventions(rows + [row]) == Interventions(rows) + if row.classification.Intervention? then 1 else 0
  {
    assert (rows + [row])[..|rows|] == rows;
  }

  lemma RowClass(id: string, r: AgentResult, before: Meter, after: Meter)
    ensures RowOf(id, None, r, before, after).classification == LiveAttempt.Classify(r.findings)
  {}

  lemma AnsweredAttempt(d: Dossier, concern: NovelConcern, concerned: nat -> bool, b: bool, pre: Preflight,
        ceiling: nat, index: nat, m: Meter)
    requires BaseFindings(d, pre.config) == [] && m.total + 2 * |pre.ids| + 4 <= ceiling
    requires forall i: nat :: m.served <= i < m.served + 2 * |pre.ids| ==> concerned(i) == b
    ensures var run := RunOf(Answering(d, concern, concerned), pre, ceiling, index, m);
      && run.attempt.Valid? && run.attempt.k == (if b then |pre.ids| else 0)
      && run.meter.total == m.total + 2 * |pre.ids| && run.meter.served == m.served + 2 * |pre.ids|
  {
    AnsweredAttemptFrom(d, concern, concerned, b, pre, ceiling, index, 0, [], m);
  }

  // ----- a provider without concerns -----

  const UNUSED: NovelConcern := NovelConcern("", [], "")

  function Quiet(d: Dossier): World {
    Answering(d, UNUSED, _ => false)
  }

  // The requests of so many quiet attempts over so many cases.
  function QuietCost(cases: nat, attempts: nat): nat {
    2 * cases * attempts
  }

  lemma QuietCostGrows(cases: nat, attempts: nat)
    ensures QuietCost(cases, attempts + 1) == QuietCost(cases, attempts) + 2 * cases
    ensures QuietCost(cases, 0) == 0 && QuietCost(cases, 1) == 2 * cases
  {}

  lemma QuietCostCovers(cases: nat, attempts: nat)
    requires attempts >= 1
    ensures QuietCost(cases, attempts) >= 2 * cases
  {}

  lemma {:induction false} QuietSessionFrom(d: Dossier, pre: Preflight, pol: Policy, ceiling: nat, index: nat,
        attempts: seq<Attempt>, m: Meter)
    requires BaseFindings(d, pre.config) == []
    requires pol.maxAttempts >= pol.target && index == |attempts| + 1 && |attempts| < pol.target
    requires CountValid(attempts) == |attempts|
    requires m.total + QuietCost(|pre.ids|, pol.target - |attempts|) + 4 <= ceiling
    ensures var run := SessionFrom(Quiet(d), pre, pol, ceiling, index, attempts, 0, m);
      run.terminal.Completed? && run.replacements == 0
    decreases pol.target - |attempts|
  {
    hide RunOf, BaseFindings, QuietCost, CountContaminated;
    var run, left := RunOf(Quiet(d), pre, ceiling, index, m), pol.target - |attempts|;
    QuietCostCovers(|pre.ids|, left);
    QuietAttempt(d, pre, ceiling, index, m);
    CountsGrow(attempts, run.attempt);
    if left > 1 {
      QuietCostGrows(|pre.ids|, left - 1);
      QuietSessionFrom(d, pre, pol, ceiling, index + 1, attempts + [run.attempt], run.meter);
    }
  }

  lemma QuietAttempt(d: Dossier, pre: Preflight, ceiling: nat, index: nat, m: Meter)
    requires BaseFindings(d, pre.config) == [] && m.total + 2 * |pre.ids| + 4 <= ceiling
    ensures var run := RunOf(Quiet(d), pre, ceiling, index, m);
      run.attempt.Valid? && run.meter.total == m.total + 2 * |pre.ids|
  {
    AnsweredAttempt(d, UNUSED, _ => false, false, pre, ceiling, index, m);
  }

  // With a clean dossier in every case and a provider that answers without concern, every session
  // whose ceiling leaves room completes without a replacement.
  lemma QuietSessionCompletes(p: Plan, m: EntityMap, ids: seq<string>, pol: Policy, ceiling: nat, start: Meter)
    requires IsBase(p) && Reflexive(m) && IsFresh(start) && 1 <= pol.target <= pol.maxAttempts
    requires QuietCost(|ids|, pol.target) + 4 <= ceiling
    ensures var run := SessionOf(Quiet(ToDossier(p)), Preflight(ids, Cfg(m)), pol, ceiling, start);
      run.terminal.Completed? && run.replacements == 0
  {
    hide IsBase, ToDossier, BaseFindings, Cfg, QuietCost;
    CleanFindings(p, m);
    QuietSessionFrom(ToDossier(p), Preflight(ids, Cfg(m)), pol, ceiling, 1, [], start);
  }

  // The frozen ids in order.
  function FrozenList(): seq<string> {
    seq(PublicSummary.EXPECTED_CASE_COUNT,
      i requires 0 <= i < PublicSummary.EXPECTED_CASE_COUNT => PublicSummary.FrozenId(i + 1))
  }

  lemma FrozenListIsTheCorpus()
    ensures SummaryAcceptance.FrozenCorpus(FrozenList())
  {
    hide PublicSummary.FrozenId, PublicSummary.FrozenIds;
    var ids := FrozenList();
    forall i | 0 <= i < |ids| ensures ids[i] in PublicSummary.ExpectedCaseIds() {
      SummaryTheorems.FrozenIdIn(i + 1, PublicSummary.EXPECTED_CASE_COUNT);
    }
    forall i, k | 0 <= i < k < |ids| ensures ids[i] != ids[k] {
      if ids[i] == ids[k] {
        SummaryTheorems.FrozenIdsDiffer(i + 1, k + 1);
      }
    }
  }

  // The record of the shipped session over the frozen corpus, answered quietly.
  function QuietRecord(m: EntityMap, start: Meter): Session
  {
    ProducerConsumer.RecordOf(Quiet(ToDossier(SomePlan())), Preflight(FrozenList(), Cfg(m)),
      SESSION_POLICY, SESSION_CALL_CEILING, start)
  }

  // So there is a session that completes without a replacement and is published.
  lemma SomeSessionIsPublished(m: EntityMap, start: Meter, meta: SessionJson.Meta, expected: Option<string>,
        pinned: PublicSummary.Pinning)
    requires Reflexive(m) && IsFresh(start) && ProducerConsumer.Presentable(meta, expected, pinned)
    ensures QuietRecord(m, start).terminal.Completed? && QuietRecord(m, start).replacementsUsed == 0
    ensures PublicSummary.BuildPublicSummary(
      SessionJson.SessionJson(QuietRecord(m, start), meta), expected, pinned).Some?
  {
    hide IsBase, ToDossier, SomePlan, SessionOf, SummaryAcceptance.FrozenCorpus,
      ProducerConsumer.Presentable, PublicSummary.BuildPublicSummary, SessionJson.SessionJson, FrozenList;
    SomePlanIsBase();
    FrozenListIsTheCorpus();
    CorpusSize(FrozenList());
    var w, pre := Quiet(ToDossier(SomePlan())), Preflight(FrozenList(), Cfg(m));
    QuietSessionCompletes(SomePlan(), m, FrozenList(), SESSION_POLICY, SESSION_CALL_CEILING, start);
    ProducerConsumer.ShippedPolicyIsSlotted();
    ProducerConsumer.CompletedWithoutReplacementIsPublished(w, pre, SESSION_POLICY, SESSION_CALL_CEILING, start,
      meta, expected, pinned);
  }

  lemma CorpusSize(ids: seq<string>)
    requires SummaryAcceptance.FrozenCorpus(ids)
    ensures |ids| == 30
  {}

  // ----- an even target -----

  const TWO_ATTEMPTS: Policy := Policy(2, 0, 2)

  // No concern in the first attempt over so many cases, and one in every case of the second.
  function Rising(d: Dossier, concern: NovelConcern, cases: nat, start: Meter): World {
    Answering(d, concern, FromRequest(start.served + 2 * cases))
  }

  function FromRequest(n: nat): nat -> bool {
    i => i >= n
  }

  lemma RisingSession(d: Dossier, concern: NovelConcern, pre: Preflight, ceiling: nat, start: Meter)
    requires BaseFindings(d, pre.config) == [] && IsFresh(start) && 4 * |pre.ids| + 4 <= ceiling
    ensures var run := SessionOf(Rising(d, concern, |pre.ids|, start), pre, TWO_ATTEMPTS, ceiling, start);
      && run.terminal.Completed? && run.replacements == 0 && |run.attempts| == 2
      && run.attempts[0].Valid? && run.attempts[0].k == 0
      && run.attempts[1].Valid? && run.attempts[1].k == |pre.ids|
  {
    hide RunOf, BaseFindings;
    var w, concerned := Rising(d, concern, |pre.ids|, start), FromRequest(start.served + 2 * |pre.ids|);
    var first := RunOf(w, pre, ceiling, 1, start);
    AnsweredAttempt(d, concern, concerned, false, pre, ceiling, 1, start);
    var second := RunOf(w, pre, ceiling, 2, first.meter);
    AnsweredAttempt(d, concern, concerned, true, pre, ceiling, 2, first.meter);
    CountsGrow([], first.attempt);
    CountsGrow([] + [first.attempt], second.attempt);
  }

  lemma TwoKs(attempts: seq<Attempt>)
    requires |attempts| == 2 && attempts[0].Valid? && attempts[1].Valid?
    ensures ValidOnes(attempts) == attempts && Ks(ValidOnes(attempts)) == [attempts[0].k, attempts[1].k]
  {
    assert attempts == [attempts[0], attempts[1]];
    assert attempts[..1] == [attempts[0]] && attempts[..1][..0] == [];
    assert ValidOnes(attempts[..1]) == [attempts[0]];
  }

  lemma MiddlesOfTwo(a: nat, b: nat)
    ensures SessionPublication.MiddlesAgree([a, b]) <==> a == b
  {
    assert [a, b][1..] == [b] && [b][1..] == [];
    assert Statistics.Sorted([b]) == [b];
    assert [a] + [b] == [a, b] && [b] + [a] == [b, a];
    assert Statistics.Insert(a, []) == [a];
    assert Statistics.Sorted([a, b]) == Statistics.Insert(a, [b]);
  }

  function RisingRecord(m: EntityMap, concern: NovelConcern, start: Meter): Session
  {
    ProducerConsumer.RecordOf(
      Rising(ToDossier(SomePlan()), concern, PublicSummary.EXPECTED_CASE_COUNT, start),
      Preflight(FrozenList(), Cfg(m)), TWO_ATTEMPTS, SESSION_CALL_CEILING, start)
  }

  lemma RisingCounts(m: EntityMap, concern: NovelConcern, start: Meter)
    requires Reflexive(m) && IsFresh(start)
    ensures var s := RisingRecord(m, concern, start);
      && s.terminal.Completed? && s.replacementsUsed == 0
      && s.distribution.Some? && s.distribution.value.orderedK == [0, 30]
  {
    hide IsBase, ToDossier, SomePlan, SessionOf, BaseFindings, Cfg, Rising, ValidOnes, Ks;
    SomePlanIsBase();
    var p, pre := SomePlan(), Preflight(FrozenList(), Cfg(m));
    CleanFindings(p, m);
    RisingSession(ToDossier(p), concern, pre, SESSION_CALL_CEILING, start);
    TwoKs(SessionOf(Rising(ToDossier(p), concern, 30, start), pre, TWO_ATTEMPTS, SESSION_CALL_CEILING, start).attempts);
  }

  lemma RisingPremises(m: EntityMap, concern: NovelConcern, start: Meter)
    ensures RisingRecord(m, concern, start)
      == ProducerConsumer.RecordOf(
        Rising(ToDossier(SomePlan()), concern, PublicSummary.EXPECTED_CASE_COUNT, start),
        Preflight(FrozenList(), Cfg(m)), TWO_ATTEMPTS, SESSION_CALL_CEILING, start)
    ensures ProducerConsumer.Slotted(TWO_ATTEMPTS) && FailClosed.Vetted(Cfg(m).registry)
  {}

  // With a target of two, a session may complete without a replacement and still be refused: the
  // counts 0 and 30 have the median 15, which is neither.
  lemma EvenTargetMayBeRefused(m: EntityMap, concern: NovelConcern, start: Meter, meta: SessionJson.Meta,
        expected: Option<string>, pinned: PublicSummary.Pinning)
    requires Reflexive(m) && IsFresh(start) && ProducerConsumer.Presentable(meta, expected, pinned)
    ensures var s := RisingRecord(m, concern, start);
      && s.terminal.Completed? && s.replacementsUsed == 0
      && PublicSummary.BuildPublicSummary(SessionJson.SessionJson(s, meta), expected, pinned) == None
  {
    hide *;
    RisingCounts(m, concern, start);
    MiddlesOfTwo(0, 30);
    FrozenListIsTheCorpus();
    RisingPremises(m, concern, start);
    var w := Rising(ToDossier(SomePlan()), concern, PublicSummary.EXPECTED_CASE_COUNT, start);
    ProducerConsumer.CompletedIsPublishedIff(w, Preflight(FrozenList(), Cfg(m)), TWO_ATTEMPTS, SESSION_CALL_CEILING,
      start, meta, expected, pinned);
  }

  // ----- a template that is not vetted -----

  const HIDDEN: Finding := Finding(LearnedRulesCheck, T1, Info, System, Some(RuleRuntimeError), "", [])

  const UNVETTED: Rules.Template := Rules.Template("hidden", map[], (d, params) => Rules.Fires(HIDDEN))
  const UNVETTED_REGISTRY: Rules.Registry_ := map["hidden" := UNVETTED]
  const HIDING_RULE: Rules.CandidateRule := Rules.CandidateRule("hiding", "hidden", map[])

  lemma {:induction false} SameDocumentFindings(nodes: seq<Node>, d: Dossier, c: Config, c': Config)
    requires c.emap == c'.emap && LearnedRulesCheck !in nodes
    ensures AllFindings(nodes, d, c) == AllFindings(nodes, d, c')
  {
    hide CanRun;
    if nodes != [] {
      SameDocumentFindings(nodes[1..], d, c, c');
      SameNodeFindings(nodes[0], d, c, c');
    }
  }

  lemma SameNodeFindings(node: Node, d: Dossier, c: Config, c': Config)
    requires c.emap == c'.emap && node != LearnedRulesCheck
    ensures NodeFindings(node, d, c) == NodeFindings(node, d, c')
  {}

  lemma HidingRuleFires(d: Dossier)
    ensures Rules.EvaluateRule(UNVETTED_REGISTRY, HIDING_RULE, d) == Rules.Fires(HIDDEN)
  {
    var params: map<Rules.Param, real> := map[];
    assert Rules.ValidateParams(UNVETTED, params) == {};
    assert UNVETTED.evaluate(d, params) == Rules.Fires(HIDDEN);
  }

  lemma LearnedRulesAlone(d: Dossier, c: Config, rule: Rules.CandidateRule)
    requires c.rules == [rule]
    ensures AllFindings([LearnedRulesCheck], d, c) == Rules.RuleFindings(c.registry, rule, d)
  {
    hide Rules.RuleFindings;
    Rules.OneRule(c.registry, rule, d);
    assert NodeFindings(LearnedRulesCheck, d, c) == Rules.LearnedFindings(c.registry, [rule], d);
    assert [LearnedRulesCheck][1..] == [];
  }

  lemma RuleFires(d: Dossier, c: Config)
    requires c.registry == UNVETTED_REGISTRY && c.rules == [HIDING_RULE]
    ensures AllFindings([LearnedRulesCheck], d, c) == [HIDDEN]
  {
    HidingRuleFires(d);
    LearnedRulesAlone(d, c, HIDING_RULE);
    hide AllFindings, Rules.EvaluateRule, UNVETTED_REGISTRY, HIDING_RULE;
  }

  // Without vetting, a template may fire an informational system finding, which the contract
  // admits: the run has a system finding and is approved.
  lemma UnvettedTemplateHides(p: Plan, m: EntityMap, proposed: Decision, reasoning: string)
    requires IsBase(p) && Reflexive(m)
    ensures Lawful(HIDDEN) && !FailClosed.Vetted(UNVETTED_REGISTRY)
    ensures var c := Config(m, UNVETTED_REGISTRY, [HIDING_RULE]);
      var run := Screen(ToDossier(p), c, Returned(TriageResult([])), Returned(Available(proposed, reasoning)));
      FailClosed.HasSystem(run.findings) && run.decision == Approve
  {
    var d, c := ToDossier(p), Config(m, UNVETTED_REGISTRY, [HIDING_RULE]);
    var t: Outcome<TriageResult> := Returned(TriageResult([]));
    var s: Outcome<Proposal> := Returned(Available(proposed, reasoning));
    NotVetted(d);
    HiddenIsQuiet();
    HidingRun(p, m, c);
    hide *;
    FindingsAreAccountedFor(d, c, t, s);
    NothingContributed(t, s, proposed, reasoning);
    assert Screen(d, c, t, s).findings == [HIDDEN] + [] + [] == [HIDDEN];
  }

  lemma HiddenIsQuiet()
    ensures Lawful(HIDDEN) && FailClosed.HasSystem([HIDDEN]) && Guardrail.Decide([HIDDEN]) == Approve
  {
    assert [HIDDEN][0].origin == System;
  }

  lemma NothingContributed(t: Outcome<TriageResult>, s: Outcome<Proposal>, proposed: Decision, reasoning: string)
    requires t == Returned(TriageResult([])) && s == Returned(Available(proposed, reasoning))
    ensures TriageContribution(t) == [] && SynthesisContribution(s) == []
  {}

  lemma HidingRun(p: Plan, m: EntityMap, c: Config)
    requires IsBase(p) && Reflexive(m) && c == Config(m, UNVETTED_REGISTRY, [HIDING_RULE])
    ensures BaseFindings(ToDossier(p), c) == [HIDDEN]
  {
    var d := ToDossier(p);
    hide IsBase, ToDossier, DOCUMENT_CHECKS, NodeFindings, UNVETTED_REGISTRY, HIDING_RULE;
    BaseIsClean(p, m);
    DocumentNodes();
    SameDocumentFindings(DOCUMENT_CHECKS, d, c, Cfg(m));
    GeneratedCases.AllFindingsJoins(DOCUMENT_CHECKS, [LearnedRulesCheck], d, c);
    RuleFires(d, c);
  }

  lemma DocumentNodes()
    ensures LearnedRulesCheck !in DOCUMENT_CHECKS
  {}

  lemma NotVetted(d: Dossier)
    ensures !FailClosed.Vetted(UNVETTED_REGISTRY)
  {
    var params: map<Rules.Param, real> := map[];
    assert "hidden" in UNVETTED_REGISTRY;
    var e := UNVETTED_REGISTRY["hidden"].evaluate(d, params);
    assert e == Rules.Fires(HIDDEN);
  }
}
