/** Producer and consumer: every session completed without replacements over the frozen corpus is
    publishable, and no session with a replaced attempt is. */
module SummaryAcceptance {
  import opened Contracts
  import opened Json
  import opened PublicSummary
  import opened SessionJson
  import A = LiveAttempt
  import Acc = AttemptAccounting
  import S = SessionAccounting
  import FailClosed
  import Wilson

  // ----- rows -----

  ghost predicate PublishableRow(r: A.CaseRow) {
    r.id in ExpectedCaseIds() && Acc.Clean(r) && Acc.Faithful(r)
  }

  lemma {:induction false} OfOriginKeeps(fs: seq<Finding>, o: Origin)
    ensures forall f :: f in OfOrigin(fs, o) ==> f in fs && f.origin == o
  {
    if fs != [] {
      OfOriginKeeps(fs[..|fs| - 1], o);
    }
  }

  lemma ConcernsAreConcerns(fs: seq<Finding>, meta: Meta)
    requires FailClosed.AllSound(fs)
    ensures var rows := ConcernRows(OfOrigin(fs, AiTriage), meta);
      forall i :: 0 <= i < |rows| ==> IsConcern(rows[i])
  {
    OfOriginKeeps(fs, AiTriage);
    var kept := OfOrigin(fs, AiTriage);
    forall i | 0 <= i < |kept| ensures IsConcern(ConcernRow(kept[i], meta)) {
      assert kept[i] in fs;
      assert FailClosed.Sound(kept[i]);
      assert Member(ConcernRow(kept[i], meta), CodeKey) == Text(CodeText(kept[i].code));
    }
  }

  lemma RowKeys(r: A.CaseRow, meta: Meta)
    ensures HasExactly(CaseRowJson(r, meta), SOURCE_CASE_FIELDS)
  {}

  lemma RowFields(r: A.CaseRow, meta: Meta)
    ensures HasExactly(CaseRowJson(r, meta), SOURCE_CASE_FIELDS)
    ensures var f := CaseRowJson(r, meta).fields;
      && f[CaseId] == Text(r.id) && f[ClassificationKey] == Text(ClassificationText(r.classification))
      && f[FinalDecision] == Text(DecisionText(r.decision)) && f[GuardrailOverrode] == Boolean(r.overrode)
      && (r.proposed.Some? ==> f[ProposalDecision] == Text(DecisionText(r.proposed.value)))
      && f[ProviderCalls] == Integer(r.providerCalls)
      && f[RetriesByStage] == Stages(r.triageRetries, r.synthesisRetries)
      && f[TriageConcerns] == List(ConcernRows(OfOrigin(r.findings, AiTriage), meta))
      && f[SystemFindings] == List(SystemRows(OfOrigin(r.findings, System)))
  {
    hide DecisionText, ClassificationText, ConcernRows, OfOrigin, SystemRows, FindingRows;
    RowKeys(r, meta);
  }

  lemma DecisionsAreKnown(d: Decision)
    ensures IsDecision(Text(DecisionText(d)))
  {}

  lemma CleanClassification(r: A.CaseRow)
    requires Acc.Clean(r)
    ensures ClassificationText(r.classification)
      == if r.classification.Intervention? then INTERVENTION else NON_INTERVENTION
  {}

  lemma StagesAreCounts(a: int, b: int)
    requires a >= 0 && b >= 0
    ensures StageCounts(Stages(a, b))
  {}

  lemma RowIsOk(r: A.CaseRow, meta: Meta)
    requires PublishableRow(r)
    ensures CaseOk(CaseRowJson(r, meta))
  {
    hide CaseRowJson, DecisionText, ClassificationText, OfOrigin, ConcernRows, SystemRows, IsDecision, Stages,
      StageCounts, ExpectedCaseIds;
    RowFields(r, meta);
    DecisionsAreKnown(r.decision);
    DecisionsAreKnown(r.proposed.value);
    CleanClassification(r);
    StagesAreCounts(r.triageRetries, r.synthesisRetries);
    ConcernsAreConcerns(r.findings, meta);
  }

  lemma TextsDiffer()
    ensures INTERVENTION != NON_INTERVENTION
  {}

  lemma RowIsPublished(r: A.CaseRow, meta: Meta)
    requires PublishableRow(r)
    ensures CaseOk(CaseRowJson(r, meta))
    ensures var c := PublicCaseOf(CaseRowJson(r, meta));
      && c.id == r.id && c.providerCalls == r.providerCalls && c.intervened == r.classification.Intervention?
    ensures CaseRowJson(r, meta).fields[RetriesByStage] == Stages(r.triageRetries, r.synthesisRetries)
  {
    hide CaseRowJson, CaseOk, ClassificationText, SeverityCodes, INTERVENTION, NON_INTERVENTION;
    RowIsOk(r, meta);
    RowFields(r, meta);
    CleanClassification(r);
    TextsDiffer();
  }

  // How many findings have this origin.
  ghost function Places(fs: seq<Finding>, o: Origin): set<int> {
    set i | 0 <= i < |fs| && fs[i].origin == o
  }

  lemma PlacesGrow(fs: seq<Finding>, o: Origin)
    requires fs != []
    ensures var n := |fs| - 1;
      |Places(fs, o)| == |Places(fs[..n], o)| + if fs[n].origin == o then 1 else 0
  {
    var n := |fs| - 1;
    var less, here := Places(fs[..n], o), if fs[n].origin == o then {n} else {};
    assert Places(fs, o) == less + here && less !! here;
  }

  lemma {:induction false} OfOriginCounts(fs: seq<Finding>, o: Origin)
    ensures |OfOrigin(fs, o)| == |Places(fs, o)|
  {
    hide Places;
    if fs == [] {
      NoPlaces(o);
    } else {
      OfOriginCounts(fs[..|fs| - 1], o);
      PlacesGrow(fs, o);
    }
  }

  lemma NoPlaces(o: Origin)
    ensures Places([], o) == {}
  {}

  lemma {:induction false} OfOriginHolds(fs: seq<Finding>, o: Origin, f: Finding)
    ensures f in OfOrigin(fs, o) <==> f in fs && f.origin == o
  {
    if fs != [] {
      OfOriginHolds(fs[..|fs| - 1], o, f);
      assert fs == fs[..|fs| - 1] + [fs[|fs| - 1]];
    }
  }

  lemma RowCodes(fs: seq<Finding>, meta: Meta, code: Code)
    requires code in {X1, X2}
    ensures CodeText(code) in SeverityCodes(ConcernRows(OfOrigin(fs, AiTriage), meta))
      <==> exists i :: 0 <= i < |fs| && fs[i].origin == AiTriage && fs[i].code == code
  {
    hide OfOrigin, ConcernRow, CodeText;
    var kept := OfOrigin(fs, AiTriage);
    var rows := ConcernRows(kept, meta);
    CodeWords(code);
    forall i | 0 <= i < |kept| ensures Member(rows[i], CodeKey) == Text(CodeText(code)) <==> kept[i].code == code {
      ConcernCode(kept[i], meta);
      CodeWordsDiffer(kept[i].code, code);
    }
    CodeListed(rows, CodeText(code));
    if i :| 0 <= i < |fs| && fs[i].origin == AiTriage && fs[i].code == code {
      OfOriginHolds(fs, AiTriage, fs[i]);
    }
    if i :| 0 <= i < |kept| && kept[i].code == code {
      OfOriginHolds(fs, AiTriage, kept[i]);
    }
  }

  lemma ConcernCode(f: Finding, meta: Meta)
    ensures Member(ConcernRow(f, meta), CodeKey) == Text(CodeText(f.code))
  {
    hide CodeText;
  }

  lemma CodeWords(code: Code)
    ensures code == X1 <==> CodeText(code) == "X1"
    ensures code == X2 <==> CodeText(code) == "X2"
  {}

  lemma CodeWordsDiffer(c: Code, d: Code)
    requires d in {X1, X2}
    ensures CodeText(c) == CodeText(d) <==> c == d
  {
    hide CodeText;
    CodeWords(c);
    CodeWords(d);
  }

  lemma CodeListed(concerns: seq<Json>, word: string)
    requires word == "X1" || word == "X2"
    ensures word in SeverityCodes(concerns) <==> Mentions(concerns, word)
  {
    hide Mentions;
  }

  // What is published of a row: its decision, its proposal and whether they differ, how many system
  // findings it has, and the codes of its triage findings.
  lemma RowIsPublishedInFull(r: A.CaseRow, meta: Meta)
    requires PublishableRow(r)
    ensures CaseOk(CaseRowJson(r, meta))
    ensures var c := PublicCaseOf(CaseRowJson(r, meta));
      && c.decision == DecisionText(r.decision) && c.proposal == DecisionText(r.proposed.value)
      && c.overrode == r.overrode == (r.proposed.value != r.decision)
      && c.systemFindings == |Places(r.findings, System)|
      && (forall code :: code in {X1, X2} ==>
            (CodeText(code) in c.severityCodes
             <==> exists i :: 0 <= i < |r.findings| && r.findings[i].origin == AiTriage && r.findings[i].code == code))
  {
    hide CaseRowJson, CaseOk, ClassificationText, SeverityCodes, CodeText, DecisionText, OfOrigin, ConcernRows;
    RowIsOk(r, meta);
    RowFields(r, meta);
    OfOriginCounts(r.findings, System);
    RowCodes(r.findings, meta, X1);
    RowCodes(r.findings, meta, X2);
  }

  // ----- the rows of an attempt -----

  ghost predicate PublishableRows(rows: seq<A.CaseRow>) {
    forall i :: 0 <= i < |rows| ==> PublishableRow(rows[i])
  }

  lemma RowsAreOk(rows: seq<A.CaseRow>, meta: Meta)
    requires PublishableRows(rows)
    ensures CasesOk(RowsJson(rows, meta))
    ensures forall i :: 0 <= i < |rows| ==> PublicCases(RowsJson(rows, meta))[i].id == rows[i].id
  {
    hide CaseRowJson, CaseOk, PublicCaseOf, PublishableRow;
    forall i | 0 <= i < |rows|
      ensures CaseOk(CaseRowJson(rows[i], meta)) && PublicCaseOf(CaseRowJson(rows[i], meta)).id == rows[i].id
    {
      RowIsPublished(rows[i], meta);
    }
  }

  lemma LastRow(rows: seq<A.CaseRow>, meta: Meta)
    requires PublishableRows(rows) && rows != []
    ensures CasesOk(RowsJson(rows, meta)) && CasesOk(RowsJson(rows[..|rows| - 1], meta))
    ensures var json, n := RowsJson(rows, meta), |rows| - 1;
      && json[..n] == RowsJson(rows[..n], meta) && json[n] == CaseRowJson(rows[n], meta)
      && PublicCases(json)[..n] == PublicCases(RowsJson(rows[..n], meta))
      && PublicCases(json)[n] == PublicCaseOf(CaseRowJson(rows[n], meta))
  {
    hide CaseRowJson, CaseOk, PublicCaseOf, PublishableRow;
    RowsAreOk(rows, meta);
    RowsAreOk(rows[..|rows| - 1], meta);
  }

  lemma {:induction false} RowTotals(rows: seq<A.CaseRow>, meta: Meta)
    requires PublishableRows(rows)
    ensures CasesOk(RowsJson(rows, meta))
    ensures CountIntervened(PublicCases(RowsJson(rows, meta))) == A.Interventions(rows)
    ensures CaseCalls(PublicCases(RowsJson(rows, meta))) == Acc.ProviderCalls(rows)
  {
    hide CaseRowJson, CaseOk, PublicCaseOf, PublishableRow, PublicCases, RowsJson, CasesOk;
    RowsAreOk(rows, meta);
    if rows == [] {
      NoRows(meta);
    } else {
      LastRow(rows, meta);
      RowTotals(rows[..|rows| - 1], meta);
      RowIsPublished(rows[|rows| - 1], meta);
      AsManyCases(rows, meta);
    }
  }

  lemma NoRows(meta: Meta)
    ensures RowsJson([], meta) == [] && PublicCases([]) == []
  {}

  lemma AsManyCases(rows: seq<A.CaseRow>, meta: Meta)
    requires CasesOk(RowsJson(rows, meta))
    ensures |RowsJson(rows, meta)| == |rows| == |PublicCases(RowsJson(rows, meta))|
  {}

  lemma {:induction false} RetryTotals(rows: seq<A.CaseRow>, meta: Meta)
    requires PublishableRows(rows)
    ensures CasesOk(RowsJson(rows, meta))
    ensures CaseRetries(RowsJson(rows, meta), AiTriageStage) == Acc.TriageRetries(rows)
    ensures CaseRetries(RowsJson(rows, meta), SynthesizeStage) == Acc.SynthesisRetries(rows)
  {
    hide CaseRowJson, PublicCaseOf, PublishableRow, PublicCases, RowsJson;
    RowsAreOk(rows, meta);
    AsManyCases(rows, meta);
    if rows != [] {
      LastRow(rows, meta);
      RetryTotals(rows[..|rows| - 1], meta);
      RowIsPublished(rows[|rows| - 1], meta);
    }
  }

  // ----- a valid attempt over the frozen corpus -----

  ghost predicate FrozenCorpus(ids: seq<string>) {
    && |ids| == EXPECTED_CASE_COUNT && (forall i :: 0 <= i < |ids| ==> ids[i] in ExpectedCaseIds())
    && forall i, k :: 0 <= i < k < |ids| ==> ids[i] != ids[k]
  }

  ghost predicate Rooted(sqrt: real -> real) {
    forall x: real :: x >= 0.0 ==> Wilson.Root(sqrt, x)
  }

  lemma SoundRows(a: A.Attempt, ids: seq<string>)
    requires a.Valid? && S.SoundAttempt(a, ids) && FrozenCorpus(ids)
    ensures PublishableRows(a.cases) && |a.cases| == EXPECTED_CASE_COUNT
    ensures forall i :: 0 <= i < |a.cases| ==> a.cases[i].id == ids[i]
  {
    hide Acc.Faithful, ExpectedCaseIds;
    S.ValidCasesAreClean(a);
    forall i | 0 <= i < |a.cases| ensures a.cases[i].id == ids[i] && PublishableRow(a.cases[i]) {
      assert A.Ids(a.cases)[i] == a.cases[i].id;
    }
  }

  lemma AttemptKeys(a: A.Attempt, meta: Meta)
    requires a.Valid?
    ensures HasExactly(AttemptJson(a, meta), ATTEMPT_FIELDS)
    ensures var f := AttemptJson(a, meta).fields;
      && f[Type] == Text(VALID) && f[Cases] == List(RowsJson(a.cases, meta)) && f[SizeN] == Integer(a.n)
      && f[HitsK] == Integer(a.k)
      && f[PointEstimate] == EstimateJson(a.k, a.n) && f[WilsonCi95] == IntervalJson(a.k, a.n, meta.sqrt)
  {
    hide RowsJson, EstimateJson, IntervalJson;
  }

  lemma EstimateIsClose(k: nat, n: nat)
    requires n > 0
    ensures IsNumber(EstimateJson(k, n)) && IsClose(Number(EstimateJson(k, n)).value, k as real / n as real)
  {}

  lemma NonNegativeDiscriminant(k: int, n: nat, z: real)
    requires 0 <= k <= n && n > 0 && z > 0.0
    ensures Wilson.Discriminant(Wilson.P(k, n), n as real, z) >= 0.0
  {
    Wilson.ProportionIsProper(k, n);
    Wilson.PositiveDiscriminant(Wilson.P(k, n), n as real, z);
  }

  lemma IntervalIsOrdered(k: nat, n: nat, sqrt: real -> real)
    requires k <= n && n > 0 && Rooted(sqrt)
    ensures OrderedPair(IntervalJson(k, n, sqrt))
  {
    hide Wilson.Ci, Wilson.Root, Wilson.Discriminant;
    NonNegativeDiscriminant(k, n, Z95);
    Wilson.ClampsNeverBind(k, n, Z95, sqrt);
  }

  lemma DistinctRows(rows: seq<A.CaseRow>, ids: seq<string>, meta: Meta)
    requires PublishableRows(rows) && FrozenCorpus(ids) && |rows| == |ids| &&
      forall i :: 0 <= i < |rows| ==> rows[i].id == ids[i]
    ensures CasesOk(RowsJson(rows, meta)) && DistinctIds(PublicCases(RowsJson(rows, meta)))
  {
    hide PublishableRow, CaseOk, PublicCaseOf, RowsJson, PublicCases;
    RowsAreOk(rows, meta);
    AsManyCases(rows, meta);
  }

  // A sound valid attempt over the frozen corpus passes every check on attempts.
  lemma AttemptIsOk(a: A.Attempt, ids: seq<string>, meta: Meta)
    requires a.Valid? && S.SoundAttempt(a, ids) && FrozenCorpus(ids) && Rooted(meta.sqrt)
    ensures AttemptOk(AttemptJson(a, meta)) && PublishableRows(a.cases)
    ensures AttemptJson(a, meta).fields[Cases] == List(RowsJson(a.cases, meta))
    ensures AttemptJson(a, meta).fields[HitsK] == Integer(a.k)
  {
    hide PublishableRow, CaseOk, RowsJson, PublicCases, AttemptJson, EstimateJson, IntervalJson, OrderedPair,
      IsClose, CasesOk, DistinctIds, FrozenCorpus, Rooted, Acc.Conserved, Acc.AllFaithful;
    SoundRows(a, ids);
    AttemptKeys(a, meta);
    RowsAreOk(a.cases, meta);
    AsManyCases(a.cases, meta);
    CorpusSize(ids);
    DistinctRows(a.cases, ids, meta);
    RowTotals(a.cases, meta);
    EstimateIsClose(a.k, a.n);
    IntervalIsOrdered(a.k, a.n, meta.sqrt);
  }

  // The decision an attempt made in these cases.
  ghost function Decided(rows: seq<A.CaseRow>, d: Decision): set<int> {
    set i | 0 <= i < |rows| && rows[i].decision == d
  }

  lemma {:induction false} RowDecisions(rows: seq<A.CaseRow>, meta: Meta, d: Decision)
    requires PublishableRows(rows)
    ensures CasesOk(RowsJson(rows, meta))
    ensures CountDecision(PublicCases(RowsJson(rows, meta)), DecisionText(d)) == |Decided(rows, d)|
  {
    hide CaseRowJson, CaseOk, PublicCaseOf, PublishableRow, PublicCases, RowsJson, CasesOk, DecisionText, Decided;
    RowsAreOk(rows, meta);
    AsManyCases(rows, meta);
    if rows == [] {
      NoneDecided(d);
    } else {
      var n := |rows| - 1;
      LastRow(rows, meta);
      RowDecisions(rows[..n], meta, d);
      RowIsPublishedInFull(rows[n], meta);
      DecisionWordsDiffer(rows[n].decision, d);
      DecidedGrow(rows, d);
    }
  }

  lemma NoneDecided(d: Decision)
    ensures Decided([], d) == {}
  {}

  lemma DecidedGrow(rows: seq<A.CaseRow>, d: Decision)
    requires rows != []
    ensures var n := |rows| - 1;
      |Decided(rows, d)| == |Decided(rows[..n], d)| + if rows[n].decision == d then 1 else 0
  {
    var n := |rows| - 1;
    var less, here := Decided(rows[..n], d), if rows[n].decision == d then {n} else {};
    assert Decided(rows, d) == less + here && less !! here;
  }

  lemma DecisionWordsDiffer(d: Decision, e: Decision)
    ensures DecisionText(d) == DecisionText(e) <==> d == e
  {}

  // The published decision counts of a sound valid attempt are the numbers of cases it approved,
  // escalated and asked about.
  lemma DecisionsArePublished(a: A.Attempt, ids: seq<string>, meta: Meta)
    requires a.Valid? && S.SoundAttempt(a, ids) && FrozenCorpus(ids) && Rooted(meta.sqrt)
    ensures AttemptOk(AttemptJson(a, meta))
    ensures var p := PublicAttemptOf(AttemptJson(a, meta));
      && p.approve == |Decided(a.cases, Approve)| && p.escalate == |Decided(a.cases, Escalate)|
      && p.requestMoreInfo == |Decided(a.cases, RequestMoreInfo)|
  {
    hide AttemptOk, AttemptJson, RowsJson, PublicCases, CountDecision, SortById, CasesOk, PublishableRows, Rooted,
      FrozenCorpus, Decided;
    AttemptIsOk(a, ids, meta);
    RowDecisions(a.cases, meta, Approve);
    RowDecisions(a.cases, meta, Escalate);
    RowDecisions(a.cases, meta, RequestMoreInfo);
    DecisionWords();
  }

  lemma DecisionWords()
    ensures DecisionText(Approve) == "approve" && DecisionText(Escalate) == "escalate"
    ensures DecisionText(RequestMoreInfo) == "request_more_info"
  {}

  lemma CorpusSize(ids: seq<string>)
    requires FrozenCorpus(ids)
    ensures |ids| == EXPECTED_CASE_COUNT
  {}
}
