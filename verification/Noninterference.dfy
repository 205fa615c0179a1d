/** What the public summary leaves out cannot influence it: two session documents that differ
    only in concern texts, field names, notes, labels, findings and environment details are both
    refused or summarized identically. */
module Noninterference {
  import opened Contracts
  import opened Json
  import opened PublicSummary

  // ----- agreement on what is published -----

  const REMOVED_CASE_KEYS: set<Key> := {AppropriateAction, Findings, ProposalNote, SystemFindings, TriageConcerns}

  predicate AllConcerns(items: seq<Json>) {
    forall i :: 0 <= i < |items| ==> IsConcern(items[i])
  }

  // Concern lists with the same set of codes; everything else about them may differ.
  predicate ConcernsAgree(x: Json, y: Json) {
    && x.List? == y.List?
    && (x.List? ==>
          && AllConcerns(x.items) == AllConcerns(y.items)
          && Mentions(x.items, "X1") == Mentions(y.items, "X1") && Mentions(x.items, "X2") == Mentions(y.items, "X2"))
  }

  predicate SizesAgree(x: Json, y: Json) {
    x.List? == y.List? && (x.List? ==> |x.items| == |y.items|)
  }

  predicate AgreeExcept(x: Json, y: Json, except: set<Key>) {
    && x.Object? && y.Object? && x.fields.Keys == y.fields.Keys
    && forall k :: k in x.fields && k !in except ==> x.fields[k] == y.fields[k]
  }

  predicate CasesAgree(c: Json, d: Json) {
    && AgreeExcept(c, d, REMOVED_CASE_KEYS)
    && (TriageConcerns in c.fields ==> ConcernsAgree(c.fields[TriageConcerns], d.fields[TriageConcerns]))
    && (SystemFindings in c.fields ==> SizesAgree(c.fields[SystemFindings], d.fields[SystemFindings]))
  }

  predicate CaseListsAgree(x: Json, y: Json) {
    x.List? && y.List? && |x.items| == |y.items| &&
      forall i :: 0 <= i < |x.items| ==> CasesAgree(x.items[i], y.items[i])
  }

  predicate AttemptsAgree(a: Json, b: Json) {
    AgreeExcept(a, b, {Cases}) && (Cases in a.fields ==> CaseListsAgree(a.fields[Cases], b.fields[Cases]))
  }

  predicate AttemptListsAgree(x: Json, y: Json) {
    x.List? && y.List? && |x.items| == |y.items| &&
      forall i :: 0 <= i < |x.items| ==> AttemptsAgree(x.items[i], y.items[i])
  }

  // The environment of the run is not published.
  predicate RunsAgree(r: Json, s: Json) {
    AgreeExcept(r, s, {HarnessVersion, PackageVersions, PythonExecutable, PythonVersion, TimestampUtc})
  }

  predicate DocumentsAgree(x: Json, y: Json) {
    && AgreeExcept(x, y, {Attempts, RunBlock})
    && (Attempts in x.fields ==> AttemptListsAgree(x.fields[Attempts], y.fields[Attempts]))
    && (RunBlock in x.fields ==> RunsAgree(x.fields[RunBlock], y.fields[RunBlock]))
  }

  // ----- cases and attempts -----

  lemma AgreedKeys(c: Json, d: Json)
    requires CasesAgree(c, d) && HasExactly(c, SOURCE_CASE_FIELDS)
    ensures HasExactly(d, SOURCE_CASE_FIELDS)
    ensures c.fields[CaseId] == d.fields[CaseId] && c.fields[ClassificationKey] == d.fields[ClassificationKey]
    ensures c.fields[FinalDecision] == d.fields[FinalDecision]
    ensures c.fields[ProposalDecision] == d.fields[ProposalDecision]
    ensures c.fields[GuardrailOverrode] == d.fields[GuardrailOverrode]
    ensures c.fields[ProviderCalls] == d.fields[ProviderCalls]
    ensures c.fields[RetriesByStage] == d.fields[RetriesByStage]
    ensures ConcernsAgree(c.fields[TriageConcerns], d.fields[TriageConcerns])
    ensures SizesAgree(c.fields[SystemFindings], d.fields[SystemFindings])
  {
    hide ConcernsAgree, SizesAgree;
    assert forall k ::
      k in SOURCE_CASE_FIELDS && k !in REMOVED_CASE_KEYS ==> k in c.fields.Keys && c.fields[k] == d.fields[k];
    assert TriageConcerns in c.fields.Keys && SystemFindings in c.fields.Keys;
  }

  // The concerns of an accepted case, given an agreeing one.
  lemma AgreedConcerns(x: Json, y: Json)
    requires ConcernsAgree(x, y) && x.List? && AllConcerns(x.items)
    ensures y.List? && AllConcerns(y.items) && SeverityCodes(x.items) == SeverityCodes(y.items)
  {
    hide Mentions, IsConcern;
  }

  lemma AgreedCaseIsOk(c: Json, d: Json)
    requires CasesAgree(c, d) && CaseOk(c)
    ensures CaseOk(d) && PublicCaseOf(c) == PublicCaseOf(d)
    ensures c.fields[RetriesByStage] == d.fields[RetriesByStage]
  {
    AgreedKeys(c, d);
    hide CasesAgree, SOURCE_CASE_FIELDS, ConcernsAgree, SeverityCodes, ExpectedCaseIds, StageCounts, IsDecision,
      IsConcern;
    assert AllConcerns(c.fields[TriageConcerns].items);
    AgreedConcerns(c.fields[TriageConcerns], d.fields[TriageConcerns]);
  }

  lemma CasesAgreeBack(c: Json, d: Json)
    requires CasesAgree(c, d)
    ensures CasesAgree(d, c)
  {}

  lemma AgreedCasesAreOk(x: Json, y: Json)
    requires CaseListsAgree(x, y) && CasesOk(x.items)
    ensures CasesOk(y.items) && PublicCases(x.items) == PublicCases(y.items)
  {
    hide CasesAgree, CaseOk, PublicCaseOf;
    forall i | 0 <= i < |x.items| ensures CaseOk(y.items[i]) && PublicCaseOf(x.items[i]) == PublicCaseOf(y.items[i]) {
      AgreedCaseIsOk(x.items[i], y.items[i]);
    }
  }

  lemma {:induction false} AgreedRetries(x: seq<Json>, y: seq<Json>, stage: Key)
    requires |x| == |y| && (forall i :: 0 <= i < |x| ==> CasesAgree(x[i], y[i])) && CasesOk(x) && CasesOk(y)
    requires stage in STAGE_FIELDS
    ensures CaseRetries(x, stage) == CaseRetries(y, stage)
  {
    hide CasesAgree, CaseOk, PublicCaseOf;
    if x != [] {
      AgreedRetries(x[..|x| - 1], y[..|y| - 1], stage);
      AgreedCaseIsOk(x[|x| - 1], y[|y| - 1]);
      LastCaseRetries(x, stage, CaseRetries(x[..|x| - 1], stage), LastStages(x));
      LastCaseRetries(y, stage, CaseRetries(y[..|y| - 1], stage), LastStages(y));
    }
  }

  function LastStages(cases: seq<Json>): (stages: Json)
    requires CasesOk(cases) && cases != []
    ensures StageCounts(stages)
  {
    cases[|cases| - 1].fields[RetriesByStage]
  }

  lemma {:induction false} LastCaseRetries(x: seq<Json>, stage: Key, before: int, stages: Json)
    requires CasesOk(x) && x != [] && stage in STAGE_FIELDS && StageCounts(stages) && stages == LastStages(x)
    requires CaseRetries(x[..|x| - 1], stage) == before
    ensures CaseRetries(x, stage) == before + stages.fields[stage].int_
  {}

  lemma AttemptKeys(a: Json, b: Json)
    requires AttemptsAgree(a, b) && HasExactly(a, ATTEMPT_FIELDS)
    ensures HasExactly(b, ATTEMPT_FIELDS) && CaseListsAgree(a.fields[Cases], b.fields[Cases])
    ensures forall k :: k in ATTEMPT_FIELDS && k != Cases ==> a.fields[k] == b.fields[k]
  {
    assert Cases in a.fields.Keys;
  }

  // Two attempts that agree are both refused or have one public row.
  lemma AgreedAttemptIsOk(a: Json, b: Json)
    requires AttemptsAgree(a, b) && AttemptOk(a)
    ensures AttemptOk(b) && PublicAttemptOf(a) == PublicAttemptOf(b)
    ensures PublicCases(a.fields[Cases].items) == PublicCases(b.fields[Cases].items)
    ensures a.fields[HitsK] == b.fields[HitsK]
    ensures CaseRetries(a.fields[Cases].items, AiTriageStage) == CaseRetries(b.fields[Cases].items, AiTriageStage)
    ensures CaseRetries(a.fields[Cases].items, SynthesizeStage) == CaseRetries(b.fields[Cases].items, SynthesizeStage)
  {
    hide AttemptsAgree, CasesAgree, CaseOk, PublicCaseOf, CasesOk, CaseListsAgree;
    AttemptKeys(a, b);
    AgreedCasesAreOk(a.fields[Cases], b.fields[Cases]);
    BothRetries(a.fields[Cases], b.fields[Cases]);
  }

  lemma BothRetries(x: Json, y: Json)
    requires CaseListsAgree(x, y) && CasesOk(x.items) && CasesOk(y.items)
    ensures CaseRetries(x.items, AiTriageStage) == CaseRetries(y.items, AiTriageStage)
    ensures CaseRetries(x.items, SynthesizeStage) == CaseRetries(y.items, SynthesizeStage)
  {
    hide CasesAgree, CasesOk;
    AgreedRetries(x.items, y.items, AiTriageStage);
    AgreedRetries(x.items, y.items, SynthesizeStage);
  }

  // ----- documents -----

  lemma {:induction false} AgreedAttemptRetries(x: seq<Json>, y: seq<Json>)
    requires |x| == |y| && (forall i :: 0 <= i < |x| ==> AttemptsAgree(x[i], y[i])) && AttemptsOk(x) && AttemptsOk(y)
    ensures AttemptRetries(x, AiTriageStage) == AttemptRetries(y, AiTriageStage)
    ensures AttemptRetries(x, SynthesizeStage) == AttemptRetries(y, SynthesizeStage)
  {
    hide AttemptsAgree, AttemptOk;
    if x != [] {
      AgreedAttemptRetries(x[..|x| - 1], y[..|y| - 1]);
      AgreedAttemptIsOk(x[|x| - 1], y[|y| - 1]);
      LastRetries(x, AiTriageStage, AttemptRetries(x[..|x| - 1], AiTriageStage));
      LastRetries(y, AiTriageStage, AttemptRetries(y[..|y| - 1], AiTriageStage));
      LastRetries(x, SynthesizeStage, AttemptRetries(x[..|x| - 1], SynthesizeStage));
      LastRetries(y, SynthesizeStage, AttemptRetries(y[..|y| - 1], SynthesizeStage));
    }
  }

  function LastCases(attempts: seq<Json>): (cases: seq<Json>)
    requires AttemptsOk(attempts) && attempts != []
    ensures CasesOk(cases)
  {
    attempts[|attempts| - 1].fields[Cases].items
  }

  lemma {:induction false} LastRetries(x: seq<Json>, stage: Key, before: int)
    requires AttemptsOk(x) && x != [] && stage in STAGE_FIELDS
    requires AttemptRetries(x[..|x| - 1], stage) == before
    ensures AttemptRetries(x, stage) == before + CaseRetries(LastCases(x), stage)
  {}

  lemma AgreedAttemptsAreOk(x: Json, y: Json)
    requires AttemptListsAgree(x, y) && AttemptsOk(x.items)
    ensures AttemptsOk(y.items) && PublicAttempts(x.items) == PublicAttempts(y.items) && Hits(x.items) == Hits(y.items)
    ensures forall i :: 0 <= i < |x.items| ==> x.items[i].fields[HitsK] == y.items[i].fields[HitsK]
    ensures AttemptRetries(x.items, AiTriageStage) == AttemptRetries(y.items, AiTriageStage)
    ensures AttemptRetries(x.items, SynthesizeStage) == AttemptRetries(y.items, SynthesizeStage)
  {
    hide AttemptsAgree, PublicAttemptOf, CasesOk, PublicCases;
    forall i | 0 <= i < |x.items|
      ensures AttemptOk(y.items[i]) && PublicAttemptOf(x.items[i]) == PublicAttemptOf(y.items[i])
      ensures PublicCases(x.items[i].fields[Cases].items) == PublicCases(y.items[i].fields[Cases].items)
      ensures x.items[i].fields[HitsK] == y.items[i].fields[HitsK]
    {
      AgreedAttemptIsOk(x.items[i], y.items[i]);
    }
    AgreedAttemptRetries(x.items, y.items);
  }

  lemma AgreedMember(x: Json, y: Json, k: Key)
    requires DocumentsAgree(x, y) && k != Attempts && k != RunBlock
    ensures Member(x, k) == Member(y, k)
  {
    if k in x.fields.Keys {
      assert x.fields[k] == y.fields[k];
    }
  }

  // Two pairs of files, each pinned for the same runs; their digests may differ.
  ghost predicate AdmitAlike(p: Pinning, q: Pinning) {
    forall id: string :: p.Admits(id) <==> q.Admits(id)
  }

  lemma AgreedRun(x: Json, y: Json, expected: Option<string>, p: Pinning, q: Pinning)
    requires DocumentsAgree(x, y) && AdmitAlike(p, q) && RunOk(x, expected, p)
    ensures RunOk(y, expected, q)
    ensures Member(x, RunBlock).fields[Git] == Member(y, RunBlock).fields[Git]
    ensures Member(x, RunBlock).fields[RunId] == Member(y, RunBlock).fields[RunId]
  {
    assert RunBlock in x.fields.Keys && RunBlock in y.fields.Keys;
    var r, s := x.fields[RunBlock], y.fields[RunBlock];
    assert RunsAgree(r, s);
    assert Git in r.fields.Keys && RunId in r.fields.Keys && RunType in r.fields.Keys;
    assert r.fields[Git] == s.fields[Git] && r.fields[RunId] == s.fields[RunId]
      && r.fields[RunType] == s.fields[RunType];
  }

  lemma AgreedAttempts(x: Json, y: Json)
    requires DocumentsAgree(x, y) && Member(x, Attempts).List?
    ensures AttemptListsAgree(Member(x, Attempts), Member(y, Attempts))
  {
    assert Attempts in x.fields.Keys && Attempts in y.fields.Keys;
  }

  lemma AgreedSession(x: Json, y: Json)
    requires DocumentsAgree(x, y) && SessionOk(x)
    ensures SessionOk(y) && AttemptListsAgree(Member(x, Attempts), Member(y, Attempts))
  {
    hide DocumentsAgree, AttemptListsAgree, SharedCorpus, PublicAttempts, AttemptsOk;
    AgreedMember(x, y, SessionBlock);
    AgreedAttempts(x, y);
    AgreedAttemptsAreOk(Member(x, Attempts), Member(y, Attempts));
    SameCount(x, y);
  }

  lemma SameCount(x: Json, y: Json)
    requires AttemptListsAgree(Member(x, Attempts), Member(y, Attempts))
    ensures |Member(x, Attempts).items| == |Member(y, Attempts).items|
  {}

  lemma AgreedCost(x: Json, y: Json)
    requires DocumentsAgree(x, y) && SessionOk(x) && SessionOk(y) && CostOk(x)
    ensures CostOk(y)
  {
    hide DocumentsAgree, AttemptListsAgree, SharedCorpus, PublicAttempts, AttemptsOk, AttemptRetries;
    AgreedMember(x, y, CostBlock);
    AgreedAttempts(x, y);
    AgreedAttemptsAreOk(Member(x, Attempts), Member(y, Attempts));
  }

  lemma AgreedDistribution(x: Json, y: Json)
    requires DocumentsAgree(x, y) && SessionOk(x) && SessionOk(y) && DistributionOk(x)
    ensures DistributionOk(y)
  {
    hide DocumentsAgree, AttemptListsAgree, SharedCorpus, PublicAttempts, Hits, RateText, IsMedian;
    AgreedMember(x, y, DistributionBlock);
    AgreedAttempts(x, y);
    AgreedAttemptsAreOk(Member(x, Attempts), Member(y, Attempts));
    SameCount(x, y);
    SameLengthHits(Member(x, Attempts).items);
  }

  lemma SameLengthHits(attempts: seq<Json>)
    requires AttemptsOk(attempts)
    ensures |Hits(attempts)| == |attempts|
  {}

  lemma AgreedRest(x: Json, y: Json)
    requires DocumentsAgree(x, y)
    ensures Member(x, Schema) == Member(y, Schema) && Member(x, SchemaVersion) == Member(y, SchemaVersion)
    ensures Member(x, PreflightBlock) == Member(y, PreflightBlock) && Member(x, Limits) == Member(y, Limits)
    ensures Member(x, ProviderBlock) == Member(y, ProviderBlock)
    ensures Member(x, DistributionBlock) == Member(y, DistributionBlock)
    ensures Member(x, CostBlock) == Member(y, CostBlock) && Member(x, SessionBlock) == Member(y, SessionBlock)
  {
    hide DocumentsAgree;
    AgreedMember(x, y, Schema);
    AgreedMember(x, y, SchemaVersion);
    AgreedMember(x, y, PreflightBlock);
    AgreedMember(x, y, Limits);
    AgreedMember(x, y, ProviderBlock);
    AgreedMember(x, y, DistributionBlock);
    AgreedMember(x, y, CostBlock);
    AgreedMember(x, y, SessionBlock);
  }

  lemma AgreedSummary(x: Json, y: Json, expected: Option<string>, p: Pinning, q: Pinning)
    requires DocumentsAgree(x, y) && AdmitAlike(p, q) && Publishable(x, expected, p)
    ensures Publishable(y, expected, q) && SummaryOf(x, expected, p).(digests := q.digests) == SummaryOf(y, expected, q)
  {
    hide DocumentsAgree, AdmitAlike, RunOk, SessionOk, CostOk, DistributionOk, AttemptListsAgree, PublicAttempts,
      Tabulate, Group, Partitions;
    AgreedRun(x, y, expected, p, q);
    AgreedRest(x, y);
    AgreedSession(x, y);
    AgreedCost(x, y);
    AgreedDistribution(x, y);
    SessionAttempts(x);
    AgreedAttemptsAreOk(Member(x, Attempts), Member(y, Attempts));
    SameCount(x, y);
  }

  lemma SessionAttempts(doc: Json)
    requires SessionOk(doc)
    ensures Member(doc, Attempts).List? && AttemptsOk(Member(doc, Attempts).items)
  {}

  lemma CaseListsAgreeBack(x: Json, y: Json)
    requires CaseListsAgree(x, y)
    ensures CaseListsAgree(y, x)
  {
    forall i | 0 <= i < |y.items| ensures CasesAgree(y.items[i], x.items[i]) {
      CasesAgreeBack(x.items[i], y.items[i]);
    }
  }

  lemma AttemptsAgreeBack(a: Json, b: Json)
    requires AttemptsAgree(a, b)
    ensures AttemptsAgree(b, a)
  {
    if Cases in a.fields.Keys {
      CaseListsAgreeBack(a.fields[Cases], b.fields[Cases]);
    }
  }

  lemma DocumentsAgreeBack(x: Json, y: Json)
    requires DocumentsAgree(x, y)
    ensures DocumentsAgree(y, x)
  {
    hide AttemptsAgree;
    if Attempts in x.fields.Keys {
      forall i | 0 <= i < |x.fields[Attempts].items|
        ensures AttemptsAgree(y.fields[Attempts].items[i], x.fields[Attempts].items[i])
      {
        AttemptsAgreeBack(x.fields[Attempts].items[i], y.fields[Attempts].items[i]);
      }
    }
  }

  lemma DigestsAreFlatKeys(d: Digests)
    ensures Walk(DigestsJson(d), FORBIDDEN_OUTPUT_KEYS)
  {}

  // What digests a summary names does not decide whether it is clean.
  lemma DigestsDoNotMatter(s: Summary, d: Digests)
    requires Walk(Rendering(s), FORBIDDEN_OUTPUT_KEYS)
    ensures Walk(Rendering(s.(digests := d)), FORBIDDEN_OUTPUT_KEYS)
  {
    hide FORBIDDEN_OUTPUT_KEYS, DigestsJson, RepeatsJson, PublicAttemptsJson;
    DigestsAreFlatKeys(d);
    var j, j' := Rendering(s), Rendering(s.(digests := d));
    var e, e' := DerivationJson(s), DerivationJson(s.(digests := d));
    assert j'.fields == j.fields[Derivation := e'] && e'.fields == e.fields[SourceArtifactDigests := DigestsJson(d)];
    assert Walk(j.fields[Derivation], FORBIDDEN_OUTPUT_KEYS);
    assert Walk(e', FORBIDDEN_OUTPUT_KEYS);
  }

  lemma SameSummary(x: Json, y: Json, expected: Option<string>, p: Pinning, q: Pinning)
    requires DocumentsAgree(x, y) && AdmitAlike(p, q) && BuildPublicSummary(x, expected, p).Some?
    ensures BuildPublicSummary(y, expected, q) == Some(BuildPublicSummary(x, expected, p).value.(digests := q.digests))
  {
    hide DocumentsAgree, AdmitAlike, Publishable, SummaryOf, Walk, Rendering;
    AgreedSummary(x, y, expected, p, q);
    DigestsDoNotMatter(SummaryOf(x, expected, p), q.digests);
  }

  // Two session documents that agree on what is published are both refused, or give summaries that
  // differ at most in the digests they name, whatever the digests of their files, if these are
  // pinned for the same runs.
  lemma RemovedFieldsDoNotMatter(x: Json, y: Json, expected: Option<string>, p: Pinning, q: Pinning)
    requires DocumentsAgree(x, y) && AdmitAlike(p, q)
    ensures var (r, s) := (BuildPublicSummary(x, expected, p), BuildPublicSummary(y, expected, q));
      && (r.Some? <==> s.Some?)
      && (r.Some? ==> s.value == r.value.(digests := q.digests))
  {
    hide DocumentsAgree, AdmitAlike, BuildPublicSummary;
    DocumentsAgreeBack(x, y);
    AdmitAlikeBack(p, q);
    if BuildPublicSummary(x, expected, p).Some? {
      SameSummary(x, y, expected, p, q);
    }
    if BuildPublicSummary(y, expected, q).Some? {
      SameSummary(y, x, expected, q, p);
    }
  }

  lemma AdmitAlikeBack(p: Pinning, q: Pinning)
    requires AdmitAlike(p, q)
    ensures AdmitAlike(q, p)
  {}

  lemma AcceptedIsPinned(doc: Json, expected: Option<string>, pinned: Pinning)
    requires BuildPublicSummary(doc, expected, pinned).Some?
    ensures var s := BuildPublicSummary(doc, expected, pinned).value;
      Member(doc, RunBlock).Object? && RunId in Member(doc, RunBlock).fields
      && Member(doc, RunBlock).fields[RunId] == Text(s.runId) && pinned.Admits(s.runId) && s.digests == pinned.digests
  {
    hide SessionOk, CostOk, DistributionOk, PreflightOk, LimitsOk, Partitions, Group, Tabulate, PublicAttempts,
      Walk, Rendering;
    assert RunId in RUN_FIELDS;
  }

  lemma AgreedRunId(x: Json, y: Json)
    requires DocumentsAgree(x, y) && Member(x, RunBlock).Object? && RunId in Member(x, RunBlock).fields
    ensures Member(y, RunBlock).Object? && RunId in Member(y, RunBlock).fields
    ensures Member(x, RunBlock).fields[RunId] == Member(y, RunBlock).fields[RunId]
  {
    assert RunBlock in x.fields.Keys && RunBlock in y.fields.Keys;
    var r, s := x.fields[RunBlock], y.fields[RunBlock];
    assert RunId in r.fields.Keys && RunId in s.fields.Keys;
  }

  // With one table of pins, at most one pair of files is ever accepted for a run: a document that
  // agrees with an accepted one but has other digests is refused.
  lemma PinAdmitsOneSource(x: Json, y: Json, expected: Option<string>, dx: Digests, dy: Digests,
        pins: map<string, Digests>)
    requires DocumentsAgree(x, y)
    ensures var (r, s) :=
      (BuildPublicSummary(x, expected, Pinning(dx, pins)), BuildPublicSummary(y, expected, Pinning(dy, pins)));
      r.Some? ==> s == if dx == dy then r else None
  {
    hide DocumentsAgree, BuildPublicSummary;
    var p, q := Pinning(dx, pins), Pinning(dy, pins);
    if BuildPublicSummary(x, expected, p).Some? {
      AcceptedIsPinned(x, expected, p);
      AgreedRunId(x, y);
      if dx == dy {
        RemovedFieldsDoNotMatter(x, y, expected, p, q);
      } else if BuildPublicSummary(y, expected, q).Some? {
        AcceptedIsPinned(y, expected, q);
        assert false;
      }
    }
  }

  // ----- what is published -----

  // No forbidden key occurs in a published summary, at any depth.
  lemma NothingForbiddenIsPublished(doc: Json, expected: Option<string>, pinned: Pinning)
    ensures var r := BuildPublicSummary(doc, expected, pinned);
      r.Some? ==> KeysIn(Rendering(r.value)) !! FORBIDDEN_OUTPUT_KEYS
  {
    hide Rendering, KeysIn, Publishable, SummaryOf;
    var r := BuildPublicSummary(doc, expected, pinned);
    if r.Some? {
      WalkFindsEveryKey(Rendering(r.value), FORBIDDEN_OUTPUT_KEYS);
    }
  }
}
