/** The session loop against the public summary: what can be completed without replacements over
    the frozen corpus is accepted; a session that replaced an attempt is refused. */
module SessionPublication {
  import opened Contracts
  import opened Json
  import opened PublicSummary
  import opened SummaryTheorems
  import opened SessionJson
  import opened SummaryAcceptance
  import opened CallBudget
  import A = LiveAttempt
  import L = LiveSession
  import Acc = AttemptAccounting
  import S = SessionAccounting
  import Statistics

  // The attempts a publishable session is made of.
  ghost predicate PublishableAttempts(attempts: seq<A.Attempt>, ids: seq<string>, meta: Meta) {
    && FrozenCorpus(ids) && Rooted(meta.sqrt) && S.SoundAttempts(attempts, ids)
    && forall i :: 0 <= i < |attempts| ==> attempts[i].Valid?
  }

  lemma AttemptsAreOk(attempts: seq<A.Attempt>, ids: seq<string>, meta: Meta)
    requires PublishableAttempts(attempts, ids, meta)
    ensures AttemptsOk(AttemptsJson(attempts, meta))
  {
    hide AttemptOk, SessionJson.AttemptJson, S.SoundAttempt, FrozenCorpus, Rooted;
    forall i | 0 <= i < |attempts| ensures AttemptOk(SessionJson.AttemptJson(attempts[i], meta)) {
      AttemptIsOk(attempts[i], ids, meta);
    }
  }

  lemma LastAttempt(attempts: seq<A.Attempt>, ids: seq<string>, meta: Meta)
    requires PublishableAttempts(attempts, ids, meta) && attempts != []
    ensures PublishableAttempts(attempts[..|attempts| - 1], ids, meta)
    ensures var json, n := AttemptsJson(attempts, meta), |attempts| - 1;
      && |json| == |attempts| && AttemptsOk(json) && AttemptsOk(AttemptsJson(attempts[..n], meta))
      && json[..n] == AttemptsJson(attempts[..n], meta) && json[n] == SessionJson.AttemptJson(attempts[n], meta)
      && PublicAttempts(json)[..n] == PublicAttempts(AttemptsJson(attempts[..n], meta))
      && PublicAttempts(json)[n] == PublicAttemptOf(SessionJson.AttemptJson(attempts[n], meta))
  {
    hide AttemptOk, SessionJson.AttemptJson, S.SoundAttempt, FrozenCorpus, Rooted, PublicAttemptOf;
    AttemptsAreOk(attempts, ids, meta);
    AttemptsAreOk(attempts[..|attempts| - 1], ids, meta);
  }

  lemma OneAttemptTotals(a: A.Attempt, ids: seq<string>, meta: Meta)
    requires a.Valid? && S.SoundAttempt(a, ids) && FrozenCorpus(ids) && Rooted(meta.sqrt)
    ensures AttemptOk(SessionJson.AttemptJson(a, meta))
    ensures CaseCalls(PublicAttemptOf(SessionJson.AttemptJson(a, meta)).cases) == Acc.ProviderCalls(a.cases)
    ensures var cases := SessionJson.AttemptJson(a, meta).fields[Cases].items;
      && CaseRetries(cases, AiTriageStage) == Acc.TriageRetries(a.cases)
      && CaseRetries(cases, SynthesizeStage) == Acc.SynthesisRetries(a.cases)
      && CountIntervened(PublicCases(cases)) == a.k
  {
    hide AttemptOk, SessionJson.AttemptJson, FrozenCorpus, Rooted, PublishableRows, RowsJson, PublicCases, CasesOk,
      Acc.Conserved, Acc.OnlyLastUnclean, Acc.AllFaithful;
    AttemptIsOk(a, ids, meta);
    RowTotals(a.cases, meta);
    RetryTotals(a.cases, meta);
    CallsOfSort(PublicCases(RowsJson(a.cases, meta)));
  }

  lemma {:induction false} SessionTotals(attempts: seq<A.Attempt>, ids: seq<string>, meta: Meta)
    requires PublishableAttempts(attempts, ids, meta)
    ensures AttemptsOk(AttemptsJson(attempts, meta))
    ensures AttemptCalls(PublicAttempts(AttemptsJson(attempts, meta))) == Acc.ProviderCalls(S.AllRows(attempts))
    ensures AttemptRetries(AttemptsJson(attempts, meta), AiTriageStage) == Acc.TriageRetries(S.AllRows(attempts))
    ensures AttemptRetries(AttemptsJson(attempts, meta), SynthesizeStage) == Acc.SynthesisRetries(S.AllRows(attempts))
  {
    hide AttemptOk, SessionJson.AttemptJson, S.SoundAttempt, FrozenCorpus, Rooted, PublicAttemptOf;
    AttemptsAreOk(attempts, ids, meta);
    if attempts != [] {
      var n := |attempts| - 1;
      LastAttempt(attempts, ids, meta);
      SessionTotals(attempts[..n], ids, meta);
      OneAttemptTotals(attempts[n], ids, meta);
      S.SumsJoin(S.AllRows(attempts[..n]), attempts[n].cases);
    }
  }

  // ----- one corpus -----

  function IdSet(ids: seq<string>): set<string> {
    set i | 0 <= i < |ids| :: ids[i]
  }

  lemma {:induction false} IdSetSize(ids: seq<string>)
    requires forall i, k :: 0 <= i < k < |ids| ==> ids[i] != ids[k]
    ensures |IdSet(ids)| == |ids|
  {
    if ids != [] {
      var n := |ids| - 1;
      IdSetSize(ids[..n]);
      assert IdSet(ids) == IdSet(ids[..n]) + {ids[n]} by {
        forall x | x in IdSet(ids) ensures x in IdSet(ids[..n]) + {ids[n]} {
          var i :| 0 <= i < |ids| && ids[i] == x;
          assert i < n ==> ids[..n][i] == x;
        }
        forall x | x in IdSet(ids[..n]) ensures x in IdSet(ids) {
          var i :| 0 <= i < n && ids[..n][i] == x;
          assert ids[i] == x;
        }
      }
      assert ids[n] !in IdSet(ids[..n]);
    }
  }

  lemma AttemptIds(a: A.Attempt, ids: seq<string>, meta: Meta)
    requires a.Valid? && S.SoundAttempt(a, ids) && FrozenCorpus(ids) && Rooted(meta.sqrt)
    ensures AttemptOk(SessionJson.AttemptJson(a, meta))
    ensures CaseIdSet(PublicAttemptOf(SessionJson.AttemptJson(a, meta))) == IdSet(ids)
    ensures DistinctIds(PublicAttemptOf(SessionJson.AttemptJson(a, meta)).cases)
  {
    hide AttemptOk, SessionJson.AttemptJson, Rooted, PublishableRows, RowsJson, PublicCases, CasesOk, Acc.Conserved,
      Acc.OnlyLastUnclean, Acc.AllFaithful, S.SoundAttempt, DistinctIds, FrozenCorpus;
    AttemptIsOk(a, ids, meta);
    SoundRows(a, ids);
    CorpusSize(ids);
    RowsAreOk(a.cases, meta);
    AsManyCases(a.cases, meta);
    DistinctRows(a.cases, ids, meta);
    var cases := PublicCases(RowsJson(a.cases, meta));
    SortDistinct(cases);
    forall id: string ensures id in CaseIdSet(PublicAttemptOf(SessionJson.AttemptJson(a, meta))) <==> id in IdSet(ids) {
      InCaseIdSet(PublicAttemptOf(SessionJson.AttemptJson(a, meta)), id);
      SortedOccurs(cases, id);
      SameIds(cases, ids, id);
    }
  }

  lemma SameIds(cases: seq<PublicCase>, ids: seq<string>, id: string)
    requires |cases| == |ids| && forall i :: 0 <= i < |ids| ==> cases[i].id == ids[i]
    ensures Occurs(cases, id) <==> id in IdSet(ids)
  {
    if i :| 0 <= i < |cases| && cases[i].id == id {
      assert ids[i] == id;
    }
    if i :| 0 <= i < |ids| && ids[i] == id {
      assert cases[i].id == id;
    }
  }

  lemma OneCorpus(attempts: seq<A.Attempt>, ids: seq<string>, meta: Meta)
    requires PublishableAttempts(attempts, ids, meta) && attempts != []
    ensures AttemptsOk(AttemptsJson(attempts, meta))
    ensures var public := PublicAttempts(AttemptsJson(attempts, meta));
      SharedCorpus(public) && forall i :: 0 <= i < |public| ==> DistinctIds(public[i].cases)
  {
    hide AttemptOk, SessionJson.AttemptJson, S.SoundAttempt, Rooted, PublicAttemptOf, CaseIdSet, DistinctIds, IdSet;
    AttemptsAreOk(attempts, ids, meta);
    forall i | 0 <= i < |attempts|
      ensures CaseIdSet(PublicAttempts(AttemptsJson(attempts, meta))[i]) == IdSet(ids)
      ensures DistinctIds(PublicAttempts(AttemptsJson(attempts, meta))[i].cases)
    {
      AttemptIds(attempts[i], ids, meta);
    }
    IdSetSize(ids);
  }

  // ----- the blocks of the document -----

  lemma Blocks(s: L.Session, meta: Meta)
    requires s.distribution.Some? && s.distribution.value.orderedK != []
    ensures var doc := SessionJson.SessionJson(s, meta);
      && Member(doc, Schema) == Text(WRITTEN_SCHEMA) && Member(doc, SchemaVersion) == Text(WRITTEN_VERSION)
      && Member(doc, RunBlock) == meta.run
      && Member(doc, SessionBlock) == SessionBlockJson(s, meta) && Member(doc, PreflightBlock) == PreflightJson(s, meta)
      && Member(doc, ProviderBlock) == ProviderJson(meta) && Member(doc, CostBlock) == CostJson(s, meta)
      && Member(doc, Attempts) == List(AttemptsJson(s.attempts, meta)) && Member(doc, Limits) == Texts(meta.limits)
      && Member(doc, DistributionBlock) == DistributionJson(s.distribution.value, meta)
  {
    hide SessionBlockJson, PreflightJson, ProviderJson, CostJson, AttemptsJson, DistributionJson, Texts;
  }

  lemma SessionFields(s: L.Session, meta: Meta)
    ensures HasExactly(SessionBlockJson(s, meta), SESSION_FIELDS)
    ensures SessionBlockJson(s, meta).fields[TerminalState] == Text(TerminalText(s.terminal))
    ensures SessionBlockJson(s, meta).fields[ValidAttempts] == Integer(s.validAttempts)
  {}

  lemma PreflightFields(s: L.Session, meta: Meta)
    ensures HasExactly(PreflightJson(s, meta), PREFLIGHT_FIELDS)
    ensures PreflightJson(s, meta).fields[FrozenContractVerified] == Boolean(true)
    ensures PreflightJson(s, meta).fields[CasesVerified] == Integer(s.casesVerified)
  {}

  lemma ProviderKeysMatch()
    ensures PROVIDER_KEYS + PROMPT_HASH_KEYS == PROVIDER_FIELDS
  {}

  lemma ProviderFields(meta: Meta)
    ensures HasExactly(ProviderJson(meta), PROVIDER_FIELDS)
  {
    hide PROVIDER_KEYS, PROMPT_HASH_KEYS, PROVIDER_FIELDS;
    ProviderKeysMatch();
  }

  lemma CostFields(s: L.Session, meta: Meta)
    ensures HasExactly(CostJson(s, meta), COST_FIELDS)
    ensures CostJson(s, meta).fields[ActualCalls] == Integer(s.cost.total)
    ensures CostJson(s, meta).fields[CallsByStage] == Stages(s.cost.byStage.triage, s.cost.byStage.synthesis)
    ensures CostJson(s, meta).fields[RetriesByStage] == Stages(s.cost.retries.triage, s.cost.retries.synthesis)
  {
    hide Stages;
  }

  lemma DistributionFields(d: L.Distribution, meta: Meta)
    requires d.orderedK != []
    ensures HasExactly(DistributionJson(d, meta), DISTRIBUTION_FIELDS)
    ensures var f := DistributionJson(d, meta).fields;
      && f[SizeN] == Integer(d.n) && f[MinK] == Integer(d.minK) && f[MaxK] == Integer(d.maxK)
      && f[MedianK] == MedianJson(d.orderedK)
      && f[OrderedK].List? && |f[OrderedK].items| == |d.orderedK|
      && (forall i :: 0 <= i < |d.orderedK| ==> f[OrderedK].items[i] == Integer(d.orderedK[i]))
      && f[OrderedRates].List? && |f[OrderedRates].items| == |d.orderedK|
      && (forall i :: 0 <= i < |d.orderedK| ==> f[OrderedRates].items[i] == RateJson(d.orderedK[i], d.n))
  {
    hide MedianJson, RateJson;
  }

  lemma StageNumbers(a: nat, b: nat)
    ensures StageCounts(Stages(a, b)) && Stages(a, b).fields[AiTriageStage] == Integer(a)
    ensures Stages(a, b).fields[SynthesizeStage] == Integer(b)
  {}

  // ----- the checks -----

  // A completed session as the summary sees it.
  ghost predicate CompletedSession(s: L.Session, ids: seq<string>, meta: Meta) {
    && PublishableAttempts(s.attempts, ids, meta) && s.attempts != [] && s.terminal.Completed?
    && s.validAttempts == |s.attempts| && s.casesVerified == |ids|
    && s.distribution.Some? && s.distribution.value.orderedK != []
  }

  lemma CompletedText()
    ensures TerminalText(L.Completed) == COMPLETED
  {}

  lemma SessionIsOk(s: L.Session, ids: seq<string>, meta: Meta)
    requires CompletedSession(s, ids, meta)
    ensures SessionOk(SessionJson.SessionJson(s, meta))
  {
    hide SessionJson.SessionJson, SharedCorpus, AttemptsOk, PublicAttempts, AttemptsJson, PublishableAttempts,
      SessionBlockJson, TerminalText;
    Blocks(s, meta);
    SessionFields(s, meta);
    CompletedText();
    AttemptsAreOk(s.attempts, ids, meta);
    OneCorpus(s.attempts, ids, meta);
    AsManyAttempts(s.attempts, meta);
  }

  lemma AsManyAttempts(attempts: seq<A.Attempt>, meta: Meta)
    ensures |AttemptsJson(attempts, meta)| == |attempts|
  {}

  lemma PreflightIsOk(s: L.Session, ids: seq<string>, meta: Meta)
    requires CompletedSession(s, ids, meta)
    ensures PreflightOk(SessionJson.SessionJson(s, meta))
  {
    hide SessionJson.SessionJson, PreflightJson;
    Blocks(s, meta);
    PreflightFields(s, meta);
  }

  // The cost block says what the rows say.
  ghost predicate CostMatches(m: Meter, rows: seq<A.CaseRow>) {
    && m.total == Acc.ProviderCalls(rows) && m.total == m.byStage.triage + m.byStage.synthesis
    && m.retries.triage == Acc.TriageRetries(rows) && m.retries.synthesis == Acc.SynthesisRetries(rows)
  }

  lemma CostFromParts(doc: Json, m: Meter, calls: int, triage: int, synthesis: int)
    requires SessionOk(doc) && HasExactly(Member(doc, CostBlock), COST_FIELDS)
    requires Member(doc, CostBlock).fields[ActualCalls] == Integer(m.total)
    requires Member(doc, CostBlock).fields[CallsByStage] == Stages(m.byStage.triage, m.byStage.synthesis)
    requires Member(doc, CostBlock).fields[RetriesByStage] == Stages(m.retries.triage, m.retries.synthesis)
    requires AttemptCalls(PublicAttempts(Member(doc, Attempts).items)) == calls == m.total
      == m.byStage.triage + m.byStage.synthesis
    requires AttemptRetries(Member(doc, Attempts).items, AiTriageStage) == triage == m.retries.triage
    requires AttemptRetries(Member(doc, Attempts).items, SynthesizeStage) == synthesis == m.retries.synthesis
    ensures CostOk(doc)
  {
    hide Member, Stages, StageCounts, PublicAttempts, SharedCorpus, AttemptsOk;
    StageNumbers(m.byStage.triage, m.byStage.synthesis);
    StageNumbers(m.retries.triage, m.retries.synthesis);
  }

  lemma CostIsOk(s: L.Session, ids: seq<string>, meta: Meta)
    requires CompletedSession(s, ids, meta) && CostMatches(s.cost, S.AllRows(s.attempts))
    ensures SessionOk(SessionJson.SessionJson(s, meta)) && CostOk(SessionJson.SessionJson(s, meta))
  {
    hide SessionJson.SessionJson, SessionOk, AttemptsOk, PublicAttempts, AttemptsJson, PublishableAttempts,
      CostJson, Stages, CostOk;
    SessionIsOk(s, ids, meta);
    Blocks(s, meta);
    CostFields(s, meta);
    SessionTotals(s.attempts, ids, meta);
    var rows := S.AllRows(s.attempts);
    CostFromParts(SessionJson.SessionJson(s, meta), s.cost, Acc.ProviderCalls(rows), Acc.TriageRetries(rows),
      Acc.SynthesisRetries(rows));
  }

  lemma DecimalThirty()
    ensures Decimal(30) == "30"
  {
    assert Decimal(3) == ['3'];
  }

  lemma RatesAgree(k: nat, n: nat)
    requires n == EXPECTED_CASE_COUNT
    ensures RateJson(k, n) == Text(RateText(Integer(k)))
  {
    DecimalThirty();
    assert Decimal(k) + "/" + "30" == Decimal(k) + "/30";
  }

  // The distribution summarizes these attempts.
  ghost predicate Distributed(d: L.Distribution, attempts: seq<A.Attempt>) {
    && |d.orderedK| == |attempts| != 0
    && (forall i :: 0 <= i < |attempts| ==> attempts[i].Valid? && d.orderedK[i] == attempts[i].k)
    && d.n == attempts[0].n && d.minK == Statistics.Min(d.orderedK) && d.maxK == Statistics.Max(d.orderedK)
  }

  lemma HitsAreKs(attempts: seq<A.Attempt>, ids: seq<string>, meta: Meta)
    requires PublishableAttempts(attempts, ids, meta)
    ensures AttemptsOk(AttemptsJson(attempts, meta))
    ensures |Hits(AttemptsJson(attempts, meta))| == |attempts|
    ensures forall i :: 0 <= i < |attempts| ==>
      Hits(AttemptsJson(attempts, meta))[i] == attempts[i].k
        && AttemptsJson(attempts, meta)[i].fields[HitsK] == Integer(attempts[i].k)
  {
    hide SessionJson.AttemptJson, S.SoundAttempt, FrozenCorpus, Rooted, PublicCases, CasesOk;
    AttemptsAreOk(attempts, ids, meta);
    forall i | 0 <= i < |attempts|
      ensures AttemptOk(SessionJson.AttemptJson(attempts[i], meta))
      ensures CountIntervened(PublicCases(SessionJson.AttemptJson(attempts[i], meta).fields[Cases].items))
        == attempts[i].k
      ensures SessionJson.AttemptJson(attempts[i], meta).fields[HitsK] == Integer(attempts[i].k)
    {
      OneAttemptTotals(attempts[i], ids, meta);
      AttemptIsOk(attempts[i], ids, meta);
    }
  }

  // An odd number of counts, or two equal middle ones.
  predicate MiddlesAgree(ks: seq<nat>) {
    ks != [] && (|ks| % 2 == 1 || Statistics.Sorted(ks)[|ks| / 2 - 1] == Statistics.Sorted(ks)[|ks| / 2])
  }

  // The median as it is written is one of the middle values exactly when these agree: the mean of
  // two different ones is neither.
  lemma MedianIsAMiddleIff(ks: seq<nat>)
    requires ks != []
    ensures IsMedian(MedianJson(ks), ks) <==> MiddlesAgree(ks)
  {}

  lemma CorpusOfAttempts(attempts: seq<A.Attempt>, ids: seq<string>, meta: Meta)
    requires PublishableAttempts(attempts, ids, meta) && attempts != []
    ensures attempts[0].Valid? && attempts[0].n == EXPECTED_CASE_COUNT
  {}

  lemma SameKs(d: L.Distribution, attempts: seq<A.Attempt>, ids: seq<string>, meta: Meta)
    requires PublishableAttempts(attempts, ids, meta) && Distributed(d, attempts)
    ensures AttemptsOk(AttemptsJson(attempts, meta)) && Hits(AttemptsJson(attempts, meta)) == d.orderedK
  {
    hide PublishableAttempts, Hits, AttemptsOk, AttemptsJson;
    HitsAreKs(attempts, ids, meta);
  }

  // The distribution passes every check on it exactly when its middle counts agree.
  lemma DistributionIsOk(s: L.Session, ids: seq<string>, meta: Meta)
    requires CompletedSession(s, ids, meta) && Distributed(s.distribution.value, s.attempts)
    ensures SessionOk(SessionJson.SessionJson(s, meta))
    ensures DistributionOk(SessionJson.SessionJson(s, meta)) <==> MiddlesAgree(s.distribution.value.orderedK)
  {
    hide SessionJson.SessionJson, SessionOk, AttemptsOk, AttemptsJson, PublishableAttempts, DistributionJson,
      MedianJson, IsMedian, MiddlesAgree, RateJson, RateText, Hits;
    var d := s.distribution.value;
    SessionIsOk(s, ids, meta);
    Blocks(s, meta);
    DistributionFields(d, meta);
    CorpusOfAttempts(s.attempts, ids, meta);
    HitsAreKs(s.attempts, ids, meta);
    SameKs(d, s.attempts, ids, meta);
    MedianIsAMiddleIff(d.orderedK);
    AsManyAttempts(s.attempts, meta);
    forall i | 0 <= i < |s.attempts| ensures RateJson(d.orderedK[i], d.n) == Text(RateText(Integer(s.attempts[i].k))) {
      RatesAgree(d.orderedK[i], d.n);
    }
  }
}
