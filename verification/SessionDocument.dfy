/** The session document against the session: what each attempt is written as, that no case is lost in
    writing, and that the session block agrees with the attempts beside it. */
module SessionDocument {
  import opened Contracts
  import opened Json
  import opened CallBudget
  import opened LiveAttempt
  import opened LiveSession
  import opened AttemptAccounting
  import opened SessionAccounting
  import opened SessionJson
  import P = PublicSummary
  import Statistics
  import SummaryTheorems
  import Wilson

  // ----- one attempt, by its type -----

  lemma ValidIsWritten(a: Attempt, meta: Meta)
    requires a.Valid?
    ensures var j := AttemptJson(a, meta);
      && j.Object? && Member(j, Type) == Text("valid") && Member(j, Cause) == Null
      && Member(j, NotAttemptedCaseIds) == Null
      && Member(j, HitsK) == Integer(a.k) && Member(j, SizeN) == Integer(a.n)
  {
    hide RowsJson, EstimateJson, IntervalJson;
  }

  // The interval of a valid attempt holds the proportions x with (x - k/n)^2 <= z^2 x (1 - x) / n for the
  // critical value z of ninety-five percent.
  lemma IntervalIsWritten(a: Attempt, meta: Meta, x: real)
    requires a.Valid? && 0 <= a.k <= a.n && a.n > 0
    requires Wilson.Root(meta.sqrt, Wilson.Discriminant(Wilson.P(a.k, a.n), a.n as real, 1.959963984540054))
    ensures var j := Member(AttemptJson(a, meta), WilsonCi95);
      && j.List? && |j.items| == 2 && j.items[0].Float? && j.items[1].Float?
      && (j.items[0].real_ <= x <= j.items[1].real_
          <==> Wilson.WithinScore(x, a.k as real / a.n as real, a.n as real, 1.959963984540054))
  {
    hide RowsJson, EstimateJson, Wilson.Ci, Wilson.Root, Wilson.Discriminant, Wilson.WithinScore;
    Wilson.IntervalIsTheScoreSet(a.k, a.n, 1.959963984540054, meta.sqrt, x);
  }

  lemma ContaminatedIsWritten(a: Attempt, meta: Meta)
    requires a.Contaminated?
    ensures var j := AttemptJson(a, meta);
      && j.Object? && j.fields.Keys !! {HitsK, SizeN, PointEstimate, WilsonCi95}
      && Member(j, Type) == Text("operationally_invalid") && Member(j, Cause) == Text("system_contamination")
      && Member(j, ContaminatedCaseIds) == P.Texts([a.contaminatedId])
      && Member(j, NotAttemptedCaseIds) == P.Texts(a.notAttempted)
  {
    hide RowsJson, StageNames, KindNames, P.Texts;
  }

  lemma ExhaustedIsWritten(a: Attempt, meta: Meta)
    requires a.BudgetExhausted?
    ensures var j := AttemptJson(a, meta);
      && j.Object? && j.fields.Keys !! {HitsK, SizeN, PointEstimate, WilsonCi95}
      && Member(j, Type) == Text("operationally_invalid") && Member(j, Cause) == Text("budget_exhausted")
      && Member(j, NotAttemptedCaseIds) == P.Texts(a.notAttempted)
  {
    hide RowsJson, P.Texts;
  }

  lemma ExhaustedNamesNobody(a: Attempt, meta: Meta)
    requires a.BudgetExhausted?
    ensures var j := AttemptJson(a, meta);
      && Member(j, ContaminatedCaseIds) == P.Texts([]) && Member(j, FailingStages) == P.Texts([])
      && Member(j, ErrorKinds) == P.Texts([])
  {
    hide RowsJson, P.Texts;
  }

  lemma ViolationIsWritten(a: Attempt, meta: Meta)
    requires a.CoverageViolation?
    ensures var j := AttemptJson(a, meta);
      && j.Object? && j.fields.Keys !! {HitsK, SizeN, PointEstimate, WilsonCi95}
      && Member(j, Type) == Text("coverage_violation") && Member(j, Cause) == Null
      && Member(j, NotAttemptedCaseIds) == P.Texts(a.notAttempted)
  {
    hide RowsJson, EvidenceJson, P.Texts;
  }

  lemma FailureIsWritten(a: Attempt, meta: Meta)
    requires a.IntegrityFailure?
    ensures var j := AttemptJson(a, meta);
      && j.Object? && j.fields.Keys !! {HitsK, SizeN, PointEstimate, WilsonCi95}
      && Member(j, Type) == Text("input_integrity_failure") && Member(j, Cause) == Null
      && Member(j, FailedCaseId) == Text(a.failedId) && Member(j, NotAttemptedCaseIds) == P.Texts(a.notAttempted)
  {
    hide RowsJson, P.Texts;
  }

  ghost predicate HasCommonFields(j: Json, a: Attempt, meta: Meta) {
    && Member(j, Index) == Integer(a.index) && Member(j, Cases) == List(RowsJson(a.cases, meta))
    && Member(j, StartedUtc) == Text(meta.started(a.index)) && Member(j, EndedUtc) == Text(meta.ended(a.index))
  }

  lemma OperationalFields(a: Attempt, meta: Meta)
    requires a.Contaminated? || a.BudgetExhausted?
    ensures HasCommonFields(AttemptJson(a, meta), a, meta)
  {
    hide RowsJson, EvidenceJson, EstimateJson, IntervalJson, StageNames, KindNames, P.Texts;
  }

  lemma OtherFields(a: Attempt, meta: Meta)
    requires a.Valid? || a.CoverageViolation? || a.IntegrityFailure?
    ensures HasCommonFields(AttemptJson(a, meta), a, meta)
  {
    hide RowsJson, EvidenceJson, EstimateJson, IntervalJson, StageNames, KindNames, P.Texts;
  }

  lemma CommonFields(a: Attempt, meta: Meta)
    ensures HasCommonFields(AttemptJson(a, meta), a, meta)
  {
    hide AttemptJson, HasCommonFields;
    if a.Contaminated? || a.BudgetExhausted? {
      OperationalFields(a, meta);
    } else {
      OtherFields(a, meta);
    }
  }

  // The type and the cause say what an attempt is, and only a valid one carries a rate.
  lemma AttemptIsWrittenAs(a: Attempt, meta: Meta)
    ensures var j := AttemptJson(a, meta);
      && j.Object?
      && (Member(j, Type) == Text("valid") <==> a.Valid?)
      && (Member(j, Type) == Text("operationally_invalid") <==> a.Contaminated? || a.BudgetExhausted?)
      && (Member(j, Type) == Text("coverage_violation") <==> a.CoverageViolation?)
      && (Member(j, Type) == Text("input_integrity_failure") <==> a.IntegrityFailure?)
      && (Member(j, Cause) == Text("system_contamination") <==> a.Contaminated?)
      && (Member(j, Cause) == Text("budget_exhausted") <==> a.BudgetExhausted?)
      && (!a.Valid? ==> j.fields.Keys !! {HitsK, SizeN, PointEstimate, WilsonCi95})
  {
    hide AttemptJson, Member, P.Texts;
    match a {
      case Valid(_, _, _, _) => CauseOfValid(a, meta);
      case Contaminated(_, _, _, _, _, _) => ContaminatedIsWritten(a, meta);
      case BudgetExhausted(_, _, _) => ExhaustedIsWritten(a, meta);
      case CoverageViolation(_, _, _, _) => ViolationIsWritten(a, meta);
      case IntegrityFailure(_, _, _, _) => FailureIsWritten(a, meta);
    }
  }

  lemma CauseOfValid(a: Attempt, meta: Meta)
    requires a.Valid?
    ensures var j := AttemptJson(a, meta); j.Object? && Member(j, Type) == Text("valid") && Member(j, Cause) == Null
  {
    ValidIsWritten(a, meta);
  }

  // ----- no case is lost in writing -----

  function TextsOf(j: Json): seq<Json> {
    if j.List? then j.items else []
  }

  function WrittenIds(cases: seq<Json>): seq<Json> {
    seq(|cases|, i requires 0 <= i < |cases| => Member(cases[i], CaseId))
  }

  // The ids of the cases written, the one named as failed, if any, and those named as not attempted
  // are the frozen ids, in order.
  ghost predicate WritesAll(j: Json, ids: seq<string>) {
    var written, rest := WrittenIds(TextsOf(Member(j, Cases))), TextsOf(Member(j, NotAttemptedCaseIds));
    || written + rest == P.Texts(ids).items
    || written + [Member(j, FailedCaseId)] + rest == P.Texts(ids).items
  }

  lemma RowsWriteIds(rows: seq<CaseRow>, meta: Meta)
    ensures WrittenIds(RowsJson(rows, meta)) == P.Texts(Ids(rows)).items
  {
    hide CaseRowJson;
    forall i | 0 <= i < |rows| ensures Member(CaseRowJson(rows[i], meta), CaseId) == Text(rows[i].id) {
      RowWritesId(rows[i], meta);
    }
  }

  lemma RowWritesId(r: CaseRow, meta: Meta)
    ensures Member(CaseRowJson(r, meta), CaseId) == Text(r.id)
  {
    hide FindingRows, ConcernRows, SystemRows, OfOrigin, Stages;
  }

  lemma TextsJoin(a: seq<string>, b: seq<string>)
    ensures P.Texts(a).items + P.Texts(b).items == P.Texts(a + b).items
  {}

  lemma OneText(t: string)
    ensures P.Texts([t]).items == [Text(t)] && P.Texts([]).items == []
  {}

  lemma TextsAreAList(ts: seq<string>)
    ensures P.Texts(ts).List?
  {}

  lemma AttemptWritesAll(a: Attempt, ids: seq<string>, meta: Meta)
    requires Conserved(a, ids)
    ensures WritesAll(AttemptJson(a, meta), ids)
  {
    hide AttemptJson, Member, P.Texts, RowsJson, Ids, WrittenIds;
    CommonFields(a, meta);
    RowsWriteIds(a.cases, meta);
    if a.Valid? {
      ValidIsWritten(a, meta);
    } else {
      TextsAreAList(a.notAttempted);
      TextsJoin(Ids(a.cases), a.notAttempted);
      match a {
        case Contaminated(_, _, _, _, _, _) => ContaminatedIsWritten(a, meta);
        case BudgetExhausted(_, _, _) => ExhaustedIsWritten(a, meta);
        case CoverageViolation(_, _, _, _) => ViolationIsWritten(a, meta);
        case IntegrityFailure(_, _, _, _) =>
          FailureIsWritten(a, meta);
          OneText(a.failedId);
          TextsJoin(Ids(a.cases), [a.failedId]);
          TextsJoin(Ids(a.cases) + [a.failedId], a.notAttempted);
      }
    }
  }

  // ----- the findings of a row -----

  // A finding is written with its origin, code, severity and stage, and with its kind of error if it has
  // one. What a model wrote is not among its fields.
  lemma FindingIsWritten(f: Finding)
    ensures var j := FindingRow(f);
      && j.Object? && Member(j, OriginKey) == Text(OriginText(f.origin)) && Member(j, CodeKey) == Text(CodeText(f.code))
      && Member(j, SeverityKey) == Text(SeverityText(f.severity)) && Member(j, CheckName) == Text(NodeText(f.check))
      && (ErrorKindKey in j.fields <==> f.errorKind.Some?)
      && (f.errorKind.Some? ==> j.fields[ErrorKindKey] == Text(KindText(f.errorKind.value)))
      && (Detail in j.fields <==> f.origin != AiTriage) && FieldsInvolved !in j.fields
      && (f.origin != AiTriage ==> j.fields[Detail] == Text(f.detail))
  {
    hide OriginText, CodeText, SeverityText, NodeText, KindText;
  }

  // A code is written as it is called.
  lemma CodeNames(c: Code)
    ensures (c, CodeText(c))
      in {(A1, "A1"), (A2, "A2"), (B1a, "B1a"), (B1b, "B1b"), (B2a, "B2a"), (B2b, "B2b"), (C1a, "C1a"), (C1b, "C1b"),
          (C2, "C2"), (D1a, "D1a"), (D1b, "D1b"), (E1, "E1"), (E2, "E2"), (X1, "X1"), (X2, "X2"), (F1, "F1"),
          (T0, "T0"), (T1, "T1")}
  {}

  lemma OriginWords(o: Origin)
    ensures OriginText(o) == "deterministic" <==> o == Deterministic
    ensures OriginText(o) == "ai_triage" <==> o == AiTriage
    ensures OriginText(o) == "system" <==> o == System
  {
    assert |"deterministic"| == 13 && |"ai_triage"| == 9 && |"system"| == 6;
  }

  lemma SeverityWords(s: Severity)
    ensures SeverityText(s) == "info" <==> s == Info
    ensures SeverityText(s) == "explainable" <==> s == Explainable
    ensures SeverityText(s) == "unexplainable" <==> s == Unexplainable
  {
    assert |"info"| == 4 && |"explainable"| == 11 && |"unexplainable"| == 13;
  }

  lemma KindWords(k: ErrorKind)
    ensures KindText(k) == "timeout" <==> k == Timeout
    ensures KindText(k) == "provider_error" <==> k == ProviderError
    ensures KindText(k) == "schema_invalid" <==> k == SchemaInvalid
    ensures KindText(k) == "unexpected_exception" <==> k == UnexpectedException
    ensures KindText(k) == "rule_runtime_error" <==> k == RuleRuntimeError
  {
    assert |"timeout"| == 7 && |"provider_error"| == 14 && |"schema_invalid"| == 14 && |"unexpected_exception"| == 20;
    assert "provider_error"[0] == 'p' && "schema_invalid"[0] == 's' && |"rule_runtime_error"| == 18;
  }

  // The stages a system finding can come from.
  // A stage is written as the graph calls its node.
  lemma NodeNames(n: Node)
    ensures (n, NodeText(n))
      in {(Extract, "extract"), (ResolveEntities, "resolve_entities"), (IdentityCheck, "check_identity_consistency"),
          (OwnershipCheck, "check_ownership_consistency"), (AuthorityCheck, "check_authority_chain"),
          (UboCheck, "check_ubo_derivation"), (CompletenessCheck, "check_completeness"),
          (LearnedRulesCheck, "check_learned_rules"), (TriageNode, "ai_triage"), (SynthesisNode, "synthesize"),
          (GuardrailNode, "guardrail"), (ActNode, "act")}
  {}

  lemma ClassificationNames(c: Classification)
    ensures (c, ClassificationText(c))
      in {(Intervention, "intervention"), (NonIntervention, "non_intervention"), (ContaminatedCase, "contaminated"),
          (CoverageViolated, "coverage_violation")}
  {}

  lemma ReasonNames(r: ViolationReason)
    ensures (r, ReasonText(r))
      in {(LearnedRulePresent, "learned_rule_finding_present"), (DeterministicPresent, "deterministic_finding_present"),
          (UnclassifiedOrigin, "unclassified_origin")}
  {}

  lemma StageWords(n: Node)
    ensures NodeText(n) == "ai_triage" <==> n == TriageNode
    ensures NodeText(n) == "synthesize" <==> n == SynthesisNode
    ensures NodeText(n) == "check_learned_rules" <==> n == LearnedRulesCheck
  {
    hide NodeText;
    ThreeStages();
    NodeWordsDiffer(n, TriageNode);
    NodeWordsDiffer(n, SynthesisNode);
    NodeWordsDiffer(n, LearnedRulesCheck);
  }

  lemma ThreeStages()
    ensures NodeText(TriageNode) == "ai_triage" && NodeText(SynthesisNode) == "synthesize"
    ensures NodeText(LearnedRulesCheck) == "check_learned_rules"
  {}

  // The text of a model is written beside a mark that it is untrusted.
  lemma ConcernIsWritten(f: Finding, meta: Meta)
    ensures var j := ConcernRow(f, meta);
      && Member(j, CodeKey) == Text(CodeText(f.code)) && Member(j, SeverityKey) == Text(SeverityText(f.severity))
      && Member(j, Detail) == Text(f.detail) && Member(j, FieldsInvolved) == P.Texts(f.fields)
      && Member(j, ContentProvenance) == Text("model_generated_untrusted")
  {
    hide CodeText, SeverityText, P.Texts;
  }

  lemma SystemIsWritten(f: Finding)
    ensures var j := SystemRow(f);
      && Member(j, StageKey) == Text(NodeText(f.check)) && Member(j, CodeKey) == Text(CodeText(f.code))
      && Member(j, ErrorKindKey) == if f.errorKind.Some? then Text(KindText(f.errorKind.value)) else Null
  {
    hide CodeText, NodeText, KindText;
  }

  // The case a coverage violation is written with.
  lemma EvidenceIsWritten(a: Attempt, meta: Meta)
    requires a.CoverageViolation? && a.cases != []
    ensures var (e, row) := (Member(AttemptJson(a, meta), Evidence), a.cases[|a.cases| - 1]);
      && Member(e, CaseId) == Text(row.id) && Member(e, FinalDecision) == Text(DecisionText(row.decision))
      && Member(e, Findings) == List(FindingRows(row.findings))
      && (Member(e, OtherKey("reason_code")) == Text("learned_rule_finding_present") <==> a.reason.LearnedRulePresent?)
      && (Member(e, OtherKey("reason_code")) == Text("deterministic_finding_present")
          <==> a.reason.DeterministicPresent?)
  {
    hide RowsJson, P.Texts, FindingRows, DecisionText, EvidenceJson;
    EvidenceFields(a.cases[|a.cases| - 1], a.reason, meta);
    ReasonWords(a.reason);
  }

  lemma EvidenceFields(r: CaseRow, reason: ViolationReason, meta: Meta)
    ensures var e := EvidenceJson(r, reason, meta);
      && Member(e, CaseId) == Text(r.id) && Member(e, FinalDecision) == Text(DecisionText(r.decision))
      && Member(e, Findings) == List(FindingRows(r.findings))
      && Member(e, CorpusHash) == Text(meta.corpusHash) && Member(e, PromotedRulesHash) == Text(meta.rulesHash)
      && Member(e, OtherKey("reason_code")) == Text(ReasonText(reason))
  {
    hide FindingRows, DecisionText, ReasonText;
    assert "reason_code" != "meaning";
  }

  lemma ReasonWords(r: ViolationReason)
    ensures ReasonText(r) == "learned_rule_finding_present" <==> r.LearnedRulePresent?
    ensures ReasonText(r) == "deterministic_finding_present" <==> r.DeterministicPresent?
  {
    assert |"learned_rule_finding_present"| == 28 && |"deterministic_finding_present"| == 29;
    assert |"unclassified_origin"| == 19;
  }

  // ----- what a contaminated attempt and a violation name -----

  ghost predicate Ascend(words: seq<string>) {
    forall i, k :: 0 <= i < k < |words| ==> P.Before(words[i], words[k])
  }

  lemma {:induction false} StagesAreListed(stages: set<Node>, n: nat)
    requires n <= |ALPHABETICAL_NODES|
    ensures forall w :: w in StageNames(stages, n) <==>
      exists i :: 0 <= i < n && ALPHABETICAL_NODES[i] in stages && NodeText(ALPHABETICAL_NODES[i]) == w
  {
    hide NodeText, ALPHABETICAL_NODES;
    if n > 0 {
      StagesAreListed(stages, n - 1);
    }
  }

  lemma EveryNodeIsListed(n: Node)
    ensures exists i :: 0 <= i < |ALPHABETICAL_NODES| && ALPHABETICAL_NODES[i] == n
  {
    var ns := ALPHABETICAL_NODES;
    assert ns[0] == ActNode && ns[1] == TriageNode && ns[2] == AuthorityCheck && ns[3] == CompletenessCheck;
    assert ns[4] == IdentityCheck && ns[5] == LearnedRulesCheck && ns[6] == OwnershipCheck && ns[7] == UboCheck;
    assert ns[8] == Extract && ns[9] == GuardrailNode && ns[10] == ResolveEntities && ns[11] == SynthesisNode;
  }

  lemma NodeWordsDiffer(n: Node, k: Node)
    ensures NodeText(n) == NodeText(k) <==> n == k
  {
    var (a, b) := (NodeText(n), NodeText(k));
    assert a == b ==> |a| == |b|;
  }

  lemma StageIsNamed(stages: set<Node>, n: Node)
    ensures NodeText(n) in StageNames(stages, |ALPHABETICAL_NODES|) <==> n in stages
  {
    hide NodeText, ALPHABETICAL_NODES;
    StagesAreListed(stages, |ALPHABETICAL_NODES|);
    EveryNodeIsListed(n);
    forall k ensures NodeText(n) == NodeText(k) <==> n == k { NodeWordsDiffer(n, k); }
  }

  lemma {:induction false} DifferAt(a: string, b: string, k: nat)
    requires k < |a| && k < |b| && a[..k] == b[..k] && a[k] < b[k]
    ensures a != b && P.Before(a, b)
  {
    if k > 0 {
      assert a[0] == a[..k][0] && b[0] == b[..k][0];
      assert a[1..][..k - 1] == a[..k][1..] && b[1..][..k - 1] == b[..k][1..];
      DifferAt(a[1..], b[1..], k - 1);
    }
  }

  lemma EarlyWords(i: nat)
    requires i < 6
    ensures P.Before(NodeText(ALPHABETICAL_NODES[i]), NodeText(ALPHABETICAL_NODES[i + 1]))
  {
    var a, b := NodeText(ALPHABETICAL_NODES[i]), NodeText(ALPHABETICAL_NODES[i + 1]);
    hide P.Before;
    var k := [1, 0, 6, 6, 6, 6][i];
    assert a[..k] == b[..k];
    DifferAt(a, b, k);
  }

  lemma LateWords(i: nat)
    requires 6 <= i < |ALPHABETICAL_NODES| - 1
    ensures P.Before(NodeText(ALPHABETICAL_NODES[i]), NodeText(ALPHABETICAL_NODES[i + 1]))
  {
    var a, b := NodeText(ALPHABETICAL_NODES[i]), NodeText(ALPHABETICAL_NODES[i + 1]);
    hide P.Before;
    var k := if i == 6 then 6 else 0;
    assert a[..k] == b[..k];
    DifferAt(a, b, k);
  }

  lemma {:induction false} NodesAscend(i: nat, k: nat)
    requires i < k < |ALPHABETICAL_NODES|
    ensures P.Before(NodeText(ALPHABETICAL_NODES[i]), NodeText(ALPHABETICAL_NODES[k]))
    decreases k
  {
    hide P.Before, NodeText, ALPHABETICAL_NODES;
    if k - 1 < 6 { EarlyWords(k - 1); } else { LateWords(k - 1); }
    if i < k - 1 {
      NodesAscend(i, k - 1);
      SummaryTheorems.BeforeIsTransitive(NodeText(ALPHABETICAL_NODES[i]), NodeText(ALPHABETICAL_NODES[k - 1]),
        NodeText(ALPHABETICAL_NODES[k]));
    }
  }

  lemma {:induction false} StageNamesAscend(stages: set<Node>, n: nat)
    requires n <= |ALPHABETICAL_NODES|
    ensures Ascend(StageNames(stages, n))
  {
    hide P.Before, NodeText, ALPHABETICAL_NODES;
    if n > 0 {
      StageNamesAscend(stages, n - 1);
      StagesAreListed(stages, n - 1);
      var words := StageNames(stages, n - 1);
      forall i | 0 <= i < |words| ensures P.Before(words[i], NodeText(ALPHABETICAL_NODES[n - 1])) {
        assert words[i] in words;
        var k :| 0 <= k < n - 1 && ALPHABETICAL_NODES[k] in stages && NodeText(ALPHABETICAL_NODES[k]) == words[i];
        NodesAscend(k, n - 1);
      }
    }
  }

  lemma {:induction false} KindsAreListed(kinds: set<ErrorKind>, n: nat)
    requires n <= |ALPHABETICAL_KINDS|
    ensures forall w :: w in KindNames(kinds, n) <==>
      exists i :: 0 <= i < n && ALPHABETICAL_KINDS[i] in kinds && KindText(ALPHABETICAL_KINDS[i]) == w
  {
    hide KindText, ALPHABETICAL_KINDS;
    if n > 0 {
      KindsAreListed(kinds, n - 1);
    }
  }

  lemma EveryKindIsListed(k: ErrorKind)
    ensures exists i :: 0 <= i < |ALPHABETICAL_KINDS| && ALPHABETICAL_KINDS[i] == k
  {
    var ks := ALPHABETICAL_KINDS;
    assert ks[0] == ProviderError && ks[1] == RuleRuntimeError && ks[2] == SchemaInvalid && ks[3] == Timeout;
    assert ks[4] == UnexpectedException;
  }

  lemma KindWordsDiffer(k: ErrorKind, l: ErrorKind)
    ensures KindText(k) == KindText(l) <==> k == l
  {
    assert KindText(k) == KindText(l) ==> |KindText(k)| == |KindText(l)|;
  }

  lemma KindIsNamed(kinds: set<ErrorKind>, k: ErrorKind)
    ensures KindText(k) in KindNames(kinds, |ALPHABETICAL_KINDS|) <==> k in kinds
  {
    hide KindText, ALPHABETICAL_KINDS;
    KindsAreListed(kinds, |ALPHABETICAL_KINDS|);
    EveryKindIsListed(k);
    forall l ensures KindText(k) == KindText(l) <==> k == l { KindWordsDiffer(k, l); }
  }

  lemma {:induction false} KindsAscend(i: nat, k: nat)
    requires i < k < |ALPHABETICAL_KINDS|
    ensures P.Before(KindText(ALPHABETICAL_KINDS[i]), KindText(ALPHABETICAL_KINDS[k]))
  {
    hide P.Before;
    DifferAt(KindText(ALPHABETICAL_KINDS[i]), KindText(ALPHABETICAL_KINDS[k]), 0);
  }

  lemma {:induction false} KindNamesAscend(kinds: set<ErrorKind>, n: nat)
    requires n <= |ALPHABETICAL_KINDS|
    ensures Ascend(KindNames(kinds, n))
  {
    hide P.Before, KindText, ALPHABETICAL_KINDS;
    if n > 0 {
      KindNamesAscend(kinds, n - 1);
      KindsAreListed(kinds, n - 1);
      var words := KindNames(kinds, n - 1);
      forall i | 0 <= i < |words| ensures P.Before(words[i], KindText(ALPHABETICAL_KINDS[n - 1])) {
        assert words[i] in words;
        var k :| 0 <= k < n - 1 && ALPHABETICAL_KINDS[k] in kinds && KindText(ALPHABETICAL_KINDS[k]) == words[i];
        KindsAscend(k, n - 1);
      }
    }
  }

  // A list of words in alphabetical order.
  ghost predicate ListOf(j: Json, words: seq<string>) {
    j == P.Texts(words) && Ascend(words)
  }

  lemma CauseIsWritten(a: Attempt, meta: Meta)
    requires a.Contaminated?
    ensures var j := AttemptJson(a, meta);
      && Member(j, FailingStages) == P.Texts(StageNames(a.failingStages, |ALPHABETICAL_NODES|))
      && Member(j, ErrorKinds) == P.Texts(KindNames(a.errorKinds, |ALPHABETICAL_KINDS|))
  {
    hide RowsJson, StageNames, KindNames, P.Texts;
  }

  // A contaminated attempt writes, in alphabetical order, exactly its failing stages and error kinds.
  lemma CauseIsNamed(a: Attempt, meta: Meta) returns (stages: seq<string>, kinds: seq<string>)
    requires a.Contaminated?
    ensures var j := AttemptJson(a, meta);
      ListOf(Member(j, FailingStages), stages) && ListOf(Member(j, ErrorKinds), kinds)
    ensures forall n :: NodeText(n) in stages <==> n in a.failingStages
    ensures forall k :: KindText(k) in kinds <==> k in a.errorKinds
  {
    hide AttemptJson, Member, NodeText, KindText, StageNames, KindNames, ALPHABETICAL_NODES, ALPHABETICAL_KINDS,
    P.Texts,
      Ascend;
    CauseIsWritten(a, meta);
    stages, kinds := StageNames(a.failingStages, |ALPHABETICAL_NODES|), KindNames(a.errorKinds, |ALPHABETICAL_KINDS|);
    StageNamesAscend(a.failingStages, |ALPHABETICAL_NODES|);
    KindNamesAscend(a.errorKinds, |ALPHABETICAL_KINDS|);
    forall n ensures NodeText(n) in stages <==> n in a.failingStages { StageIsNamed(a.failingStages, n); }
    forall k ensures KindText(k) in kinds <==> k in a.errorKinds { KindIsNamed(a.errorKinds, k); }
  }

  // ----- the session block and the attempts beside it -----

  predicate Says(j: Json, field: Key, word: string) {
    Member(j, field) == Text(word)
  }

  ghost function TrueAt(flags: seq<bool>): set<int> {
    set i | 0 <= i < |flags| && flags[i]
  }

  lemma OneMoreFlag(flags: seq<bool>, b: bool)
    ensures |TrueAt(flags + [b])| == |TrueAt(flags)| + if b then 1 else 0
  {
    assert TrueAt(flags + [b]) == TrueAt(flags) + if b then {|flags|} else {};
  }

  function Flags(js: seq<Json>, field: Key, word: string): seq<bool> {
    seq(|js|, i requires 0 <= i < |js| => Says(js[i], field, word))
  }

  // The attempts whose field holds this word.
  ghost function Where(js: seq<Json>, field: Key, word: string): set<int> {
    TrueAt(Flags(js, field, word))
  }

  lemma WhereGrows(js: seq<Json>, field: Key, word: string)
    requires js != []
    ensures var n := |js| - 1;
      |Where(js, field, word)| == |Where(js[..n], field, word)| + if Says(js[n], field, word) then 1 else 0
  {
    hide Says, TrueAt;
    var n := |js| - 1;
    OneMoreFlag(Flags(js[..n], field, word), Says(js[n], field, word));
    assert Flags(js, field, word) == Flags(js[..n], field, word) + [Says(js[n], field, word)];
  }

  lemma NoWhere(field: Key, word: string)
    ensures Where([], field, word) == {}
  {}

  lemma {:induction false} TypesAreCounted(attempts: seq<Attempt>, meta: Meta)
    ensures var js := AttemptsJson(attempts, meta);
      && |Where(js, Type, "valid")| == CountValid(attempts)
      && |Where(js, Type, "operationally_invalid")| == CountInvalid(attempts)
      && |Where(js, Cause, "system_contamination")| == CountContaminated(attempts)
  {
    hide AttemptJson, Where, Member;
    if attempts == [] {
      NoWhere(Type, "valid");
      NoWhere(Type, "operationally_invalid");
      NoWhere(Cause, "system_contamination");
      assert AttemptsJson([], meta) == [];
    } else {
      var n := |attempts| - 1;
      var js := AttemptsJson(attempts, meta);
      TypesAreCounted(attempts[..n], meta);
      AttemptIsWrittenAs(attempts[n], meta);
      assert js[..n] == AttemptsJson(attempts[..n], meta) && js[n] == AttemptJson(attempts[n], meta);
      WhereGrows(js, Type, "valid");
      WhereGrows(js, Type, "operationally_invalid");
      WhereGrows(js, Cause, "system_contamination");
    }
  }

  lemma BlockFields(s: Session, meta: Meta)
    ensures var b := SessionBlockJson(s, meta);
      && Member(b, StartedUtc) == Text(meta.sessionStarted) && Member(b, EndedUtc) == Text(meta.sessionEnded)
      && Member(b, TerminalState) == Text(TerminalText(s.terminal))
      && Member(b, ValidAttempts) == Integer(s.validAttempts)
      && Member(b, InvalidAttempts) == Integer(s.invalidAttempts)
      && Member(b, ReplacementsUsed) == Integer(s.replacementsUsed)
      && Member(b, AttemptsMade) == Integer(s.attemptsMade)
      && Member(b, TargetValidAttempts) == Integer(s.policy.target)
      && Member(b, MaxReplacements) == Integer(s.policy.replacements)
      && Member(b, MaxAttempts) == Integer(s.policy.maxAttempts)
  {
    hide TerminalText;
  }

  // The preflight and the cost block of a record, with the shipped limits.
  lemma BudgetIsWritten(s: Session, meta: Meta)
    ensures var (p, c) := (PreflightJson(s, meta), CostJson(s, meta));
      && Member(p, FrozenContractVerified) == Boolean(true) && Member(p, CasesVerified) == Integer(s.casesVerified)
      && Member(p, CorpusHash) == Text(meta.corpusHash) && Member(p, PromotedRulesHash) == Text(meta.rulesHash)
      && Member(c, ActualCalls) == Integer(s.cost.total)
      && Member(c, MaxCallsPerCase) == Integer(6) && Member(c, MaxCallsPerCleanAttempt) == Integer(6 * s.casesVerified)
      && Member(c, SessionCallCeiling) == Integer(600)
  {
    hide Stages;
  }

  // The median of an odd number of counts is written as an integer, that of an even number as a float.
  lemma MedianIsWritten(ks: seq<nat>)
    requires ks != []
    ensures MedianJson(ks).Integer? <==> |ks| % 2 == 1
    ensures MedianJson(ks).Integer? || MedianJson(ks) == Float(Statistics.Median(ks))
    ensures Number(MedianJson(ks)) == Some(Statistics.Median(ks))
  {}

  lemma TerminalWords(t: Terminal)
    ensures TerminalText(t) == "completed" <==> t.Completed?
    ensures TerminalText(t) == "operational_failure_exhausted" <==> t.OperationalFailureExhausted?
    ensures TerminalText(t) == "coverage_violation" <==> t.CoverageViolationFound?
    ensures TerminalText(t) == "live_call_budget_exhausted" <==> t.LiveCallBudgetExhausted?
    ensures TerminalText(t) == "input_integrity_failure" <==> t.InputIntegrityFailure?
  {
    var w := TerminalText(t);
    assert |"completed"| == 9 && |"operational_failure_exhausted"| == 29 && |"coverage_violation"| == 18;
    assert |"live_call_budget_exhausted"| == 26 && |"input_integrity_failure"| == 23;
  }

  lemma DistributionIsAnObject(d: Distribution, meta: Meta)
    requires d.orderedK != []
    ensures DistributionJson(d, meta).Object?
  {}

  lemma WrittenParts(s: Session, meta: Meta)
    ensures Member(SessionJson.SessionJson(s, meta), SessionBlock) == SessionBlockJson(s, meta)
    ensures Member(SessionJson.SessionJson(s, meta), Attempts) == List(AttemptsJson(s.attempts, meta))
    ensures Member(SessionJson.SessionJson(s, meta), DistributionBlock).Object?
      <==> s.distribution.Some? && s.distribution.value.orderedK != []
  {
    hide AttemptsJson, SessionBlockJson, PreflightJson, ProviderJson, CostJson, DistributionJson, P.Texts;
    if s.distribution.Some? && s.distribution.value.orderedK != [] {
      DistributionIsAnObject(s.distribution.value, meta);
    }
  }

  // What the session block says of the list of attempts it stands beside.
  ghost predicate BlockAgrees(block: Json, js: seq<Json>, pol: Policy)
    requires js != []
  {
    var last := js[|js| - 1];
    && Member(block, AttemptsMade) == Integer(|js|)
    && Member(block, ValidAttempts) == Integer(|Where(js, Type, "valid")|)
    && Member(block, InvalidAttempts) == Integer(|Where(js, Type, "operationally_invalid")|)
    && Member(block, ReplacementsUsed) == Integer(|Where(js, Cause, "system_contamination")|)
    && Member(block, TargetValidAttempts) == Integer(pol.target)
    && Member(block, MaxReplacements) == Integer(pol.replacements)
    && Member(block, MaxAttempts) == Integer(pol.target + pol.replacements)
    && (Says(block, TerminalState, "completed") <==> Says(last, Type, "valid"))
    && (Says(block, TerminalState, "operational_failure_exhausted") <==> Says(last, Cause, "system_contamination"))
    && (Says(block, TerminalState, "live_call_budget_exhausted") <==> Says(last, Cause, "budget_exhausted"))
    && (Says(block, TerminalState, "coverage_violation") <==> Says(last, Type, "coverage_violation"))
    && (Says(block, TerminalState, "input_integrity_failure") <==> Says(last, Type, "input_integrity_failure"))
  }

  lemma RecordOfRun(w: World, pre: Preflight, pol: Policy, ceiling: nat, m: Meter)
    requires pol.target >= 1 && pol.maxAttempts == pol.target + pol.replacements
    ensures var run := SessionOf(w, pre, pol, ceiling, m);
      var s := Record(run, pol, |pre.ids|);
      && s.attempts == run.attempts && s.terminal == run.terminal && s.attemptsMade == |run.attempts|
      && s.validAttempts == CountValid(run.attempts) && s.invalidAttempts == CountInvalid(run.attempts)
      && s.replacementsUsed == run.replacements == CountContaminated(run.attempts) && s.policy == pol
      && run.attempts != []
  {
    hide SessionOf;
    SessionOutcome(w, pre, pol, ceiling, m);
    CountsValid(SessionOf(w, pre, pol, ceiling, m).attempts);
  }

  // Every session of every provider writes a session block that agrees with its attempts, and a
  // distribution exactly if it says that it completed.
  lemma DocumentAgrees(w: World, pre: Preflight, pol: Policy, ceiling: nat, m: Meter, meta: Meta)
    requires pol.target >= 1 && pol.maxAttempts == pol.target + pol.replacements
    ensures var doc := SessionJson.SessionJson(Record(SessionOf(w, pre, pol, ceiling, m), pol, |pre.ids|), meta);
      && Member(doc, Attempts).List? && Member(doc, Attempts).items != []
      && BlockAgrees(Member(doc, SessionBlock), Member(doc, Attempts).items, pol)
      && (Member(doc, DistributionBlock).Object? <==> Says(Member(doc, SessionBlock), TerminalState, "completed"))
  {
    hide SessionOf, Record, AttemptJson, SessionBlockJson, SessionJson.SessionJson, Member, CountValid, CountInvalid,
      CountContaminated, TerminalText, Where;
    var run := SessionOf(w, pre, pol, ceiling, m);
    var s := Record(run, pol, |pre.ids|);
    SessionOutcome(w, pre, pol, ceiling, m);
    RecordOfRun(w, pre, pol, ceiling, m);
    DistributionIffCompleted(w, pre, pol, ceiling, m);
    WrittenParts(s, meta);
    BlockFields(s, meta);
    TerminalWords(s.terminal);
    TypesAreCounted(s.attempts, meta);
    AttemptIsWrittenAs(s.attempts[|s.attempts| - 1], meta);
    assert |AttemptsJson(s.attempts, meta)| == |s.attempts|;
  }
}
