/** The two ends together: a completed session over the frozen corpus is published exactly when no
    attempt had to be replaced. */
module ProducerConsumer {
  import opened Contracts
  import opened Json
  import opened PublicSummary
  import opened SummaryTheorems
  import opened SessionJson
  import opened SummaryAcceptance
  import opened SessionPublication
  import opened CallBudget
  import A = LiveAttempt
  import L = LiveSession
  import Acc = AttemptAccounting
  import S = SessionAccounting
  import FailClosed

  // ----- no forbidden key -----

  // A value without keys of its own.
  predicate Flat(j: Json) {
    !j.Object? && (j.List? ==> forall i :: 0 <= i < |j.items| ==> !j.items[i].Object? && !j.items[i].List?)
  }

  lemma FlatWalks(j: Json)
    requires Flat(j)
    ensures Walk(j, FORBIDDEN_OUTPUT_KEYS)
  {}

  lemma FlatFieldsWalk(j: Json)
    requires j.Object? && j.fields.Keys !! FORBIDDEN_OUTPUT_KEYS && forall k :: k in j.fields ==> Flat(j.fields[k])
    ensures Walk(j, FORBIDDEN_OUTPUT_KEYS)
  {
    hide FORBIDDEN_OUTPUT_KEYS, Flat;
    forall k | k in j.fields ensures Walk(j.fields[k], FORBIDDEN_OUTPUT_KEYS) {
      FlatWalks(j.fields[k]);
    }
  }

  lemma TextsAreFlat(ts: seq<string>)
    ensures Flat(Texts(ts))
  {}

  lemma SessionBlockWalks(s: L.Session, meta: Meta)
    ensures Walk(SessionBlockJson(s, meta), FORBIDDEN_OUTPUT_KEYS)
  {
    FlatFieldsWalk(SessionBlockJson(s, meta));
  }

  lemma PreflightWalks(s: L.Session, meta: Meta)
    ensures Walk(PreflightJson(s, meta), FORBIDDEN_OUTPUT_KEYS)
  {
    FlatFieldsWalk(PreflightJson(s, meta));
  }

  // The pinned provider settings are numbers, texts and one list of numbers.
  ghost predicate FlatProvider(meta: Meta) {
    forall k :: Flat(meta.provider(k))
  }

  lemma ProviderWalks(meta: Meta)
    requires FlatProvider(meta)
    ensures Walk(ProviderJson(meta), FORBIDDEN_OUTPUT_KEYS)
  {
    hide Flat;
    FlatFieldsWalk(ProviderJson(meta));
  }

  lemma StagesWalk(a: int, b: int)
    ensures Walk(Stages(a, b), FORBIDDEN_OUTPUT_KEYS)
  {
    FlatFieldsWalk(Stages(a, b));
  }

  lemma CostWalks(s: L.Session, meta: Meta)
    ensures Walk(CostJson(s, meta), FORBIDDEN_OUTPUT_KEYS)
  {
    hide Stages;
    StagesWalk(s.cost.byStage.triage, s.cost.byStage.synthesis);
    StagesWalk(s.cost.retries.triage, s.cost.retries.synthesis);
  }

  lemma DistributionWalks(d: L.Distribution, meta: Meta)
    requires d.orderedK != []
    ensures Walk(DistributionJson(d, meta), FORBIDDEN_OUTPUT_KEYS)
  {
    hide *;
    DistributionKeysAllowed(d, meta);
    DistributionIsFlat(d, meta);
    FlatFieldsWalk(DistributionJson(d, meta));
  }

  lemma DistributionKeysAllowed(d: L.Distribution, meta: Meta)
    requires d.orderedK != []
    ensures DistributionJson(d, meta).Object? && DistributionJson(d, meta).fields.Keys !! FORBIDDEN_OUTPUT_KEYS
  {
    hide RateJson;
  }

  lemma DistributionIsFlat(d: L.Distribution, meta: Meta)
    requires d.orderedK != []
    ensures DistributionJson(d, meta).Object?
    ensures forall k :: k in DistributionJson(d, meta).fields ==> Flat(DistributionJson(d, meta).fields[k])
  {
    hide RateJson;
    RatesAreTexts(d);
  }

  lemma RatesAreTexts(d: L.Distribution)
    ensures forall i :: 0 <= i < |d.orderedK| ==> RateJson(d.orderedK[i], d.n).Text?
  {}

  lemma CaseWalks(c: PublicCase)
    ensures Walk(PublicCaseJson(c), FORBIDDEN_OUTPUT_KEYS)
  {
    hide Texts;
    TextsAreFlat(c.severityCodes);
    FlatFieldsWalk(PublicCaseJson(c));
  }

  lemma DecisionCountsWalk(a: PublicAttempt)
    ensures Walk(DecisionCounts(a), FORBIDDEN_OUTPUT_KEYS)
  {
    FlatFieldsWalk(DecisionCounts(a));
  }

  // The values a public attempt copies from its source.
  predicate FlatAttempt(a: PublicAttempt) {
    Flat(a.index) && Flat(a.started) && Flat(a.ended) && Flat(a.k) && Flat(a.n) && Flat(a.point) && Flat(a.interval)
  }

  lemma CasesWalk(cases: seq<PublicCase>)
    ensures Walk(PublicCasesJson(cases), FORBIDDEN_OUTPUT_KEYS)
  {
    hide PublicCaseJson;
    forall i | 0 <= i < |cases| ensures Walk(PublicCaseJson(cases[i]), FORBIDDEN_OUTPUT_KEYS) {
      CaseWalks(cases[i]);
    }
  }

  // An object whose keys are allowed and whose values are clean is clean.
  lemma FieldsWalk(j: Json)
    requires j.Object? && j.fields.Keys !! FORBIDDEN_OUTPUT_KEYS
    requires forall k :: k in j.fields ==> Walk(j.fields[k], FORBIDDEN_OUTPUT_KEYS)
    ensures Walk(j, FORBIDDEN_OUTPUT_KEYS)
  {
    hide FORBIDDEN_OUTPUT_KEYS;
  }

  lemma AttemptKeysAllowed(a: PublicAttempt)
    ensures PublicAttemptJson(a).fields.Keys !! FORBIDDEN_OUTPUT_KEYS
  {
    hide DecisionCounts, PublicCasesJson;
  }

  lemma AttemptWalks(a: PublicAttempt)
    requires FlatAttempt(a)
    ensures Walk(PublicAttemptJson(a), FORBIDDEN_OUTPUT_KEYS)
  {
    hide Flat, DecisionCounts, PublicCasesJson, FORBIDDEN_OUTPUT_KEYS;
    AttemptKeysAllowed(a);
    FlatWalks(a.index);
    FlatWalks(a.started);
    FlatWalks(a.ended);
    FlatWalks(a.k);
    FlatWalks(a.n);
    FlatWalks(a.point);
    FlatWalks(a.interval);
    DecisionCountsWalk(a);
    CasesWalk(a.cases);
    assert Walk(Text(VALID), FORBIDDEN_OUTPUT_KEYS);
    FieldsWalk(PublicAttemptJson(a));
  }

  lemma GroupWalks(ids: set<string>)
    ensures Walk(GroupJson(ids), FORBIDDEN_OUTPUT_KEYS)
  {
    hide Texts, InOrder;
    TextsAreFlat(InOrder(ids, EXPECTED_CASE_COUNT));
    FlatFieldsWalk(GroupJson(ids));
  }

  lemma AttemptsWalk(attempts: seq<PublicAttempt>)
    requires forall i :: 0 <= i < |attempts| ==> FlatAttempt(attempts[i])
    ensures Walk(PublicAttemptsJson(attempts), FORBIDDEN_OUTPUT_KEYS)
  {
    hide PublicAttemptJson, FlatAttempt;
    forall i | 0 <= i < |attempts| ensures Walk(PublicAttemptJson(attempts[i]), FORBIDDEN_OUTPUT_KEYS) {
      AttemptWalks(attempts[i]);
    }
  }

  lemma RepeatsWalk(r: RepeatStructure)
    ensures Walk(RepeatsJson(r), FORBIDDEN_OUTPUT_KEYS)
  {
    hide GroupJson;
    GroupWalks(r.always);
    GroupWalks(r.sometimes);
    GroupWalks(r.never);
    GroupWalks(r.varied);
  }

  lemma DerivationWalks(s: Summary)
    ensures Walk(DerivationJson(s), FORBIDDEN_OUTPUT_KEYS)
  {
    hide DigestsJson;
    FlatFieldsWalk(DigestsJson(s.digests)) by {
      DigestsAreFlat(s.digests);
    }
  }

  lemma DigestsAreFlat(d: Digests)
    ensures DigestsJson(d).Object? && DigestsJson(d).fields.Keys !! FORBIDDEN_OUTPUT_KEYS
    ensures forall k :: k in DigestsJson(d).fields ==> Flat(DigestsJson(d).fields[k])
  {}

  lemma RenderingKeys(s: Summary)
    ensures Rendering(s).fields.Keys !! FORBIDDEN_OUTPUT_KEYS
  {
    hide RepeatsJson, DerivationJson, PublicAttemptsJson;
  }

  // A summary whose blocks are clean is clean.
  lemma RenderingWalks(s: Summary)
    requires forall i :: 0 <= i < |s.attempts| ==> FlatAttempt(s.attempts[i])
    requires Walk(s.preflight, FORBIDDEN_OUTPUT_KEYS) && Walk(s.provider, FORBIDDEN_OUTPUT_KEYS)
    requires Walk(s.session, FORBIDDEN_OUTPUT_KEYS)
    requires Walk(s.cost, FORBIDDEN_OUTPUT_KEYS) && Walk(s.distribution, FORBIDDEN_OUTPUT_KEYS)
    requires Walk(s.limits, FORBIDDEN_OUTPUT_KEYS)
    ensures Walk(Rendering(s), FORBIDDEN_OUTPUT_KEYS)
  {
    hide RepeatsJson, DerivationJson, PublicAttemptsJson, FlatAttempt, FORBIDDEN_OUTPUT_KEYS;
    RenderingKeys(s);
    RepeatsWalk(s.repeats);
    DerivationWalks(s);
    AttemptsWalk(s.attempts);
    assert Walk(Text("redteam_live_public_summary"), FORBIDDEN_OUTPUT_KEYS);
    FieldsWalk(Rendering(s));
  }

  // ----- acceptance -----

  // What is assumed of the outside: a run block that passes by itself, flat provider settings
  // and a square root.
  ghost predicate Presentable(meta: Meta, expected: Option<string>, pinned: Pinning) {
    RunOk(Object(map[RunBlock := meta.run]), expected, pinned) && FlatProvider(meta) && Rooted(meta.sqrt)
  }

  lemma SameRun(doc: Json, meta: Meta, expected: Option<string>, pinned: Pinning)
    requires Member(doc, RunBlock) == meta.run && RunOk(Object(map[RunBlock := meta.run]), expected, pinned)
    ensures RunOk(doc, expected, pinned)
  {
    assert Member(Object(map[RunBlock := meta.run]), RunBlock) == meta.run;
  }

  lemma SchemasMatch()
    ensures WRITTEN_SCHEMA == SOURCE_SCHEMA && WRITTEN_VERSION == SOURCE_SCHEMA_VERSION
  {}

  lemma LimitsAreOk(doc: Json, meta: Meta)
    requires Member(doc, Limits) == Texts(meta.limits)
    ensures LimitsOk(doc)
  {}

  // Everything the record of a publishable session has to say.
  ghost predicate PublishableSession(s: L.Session, ids: seq<string>, meta: Meta) {
    && CompletedSession(s, ids, meta) && CostMatches(s.cost, S.AllRows(s.attempts))
    && Distributed(s.distribution.value, s.attempts)
  }

  lemma PassesEveryCheck(doc: Json, expected: Option<string>, pinned: Pinning, attempts: seq<Json>)
    requires Member(doc, Schema) == Text(SOURCE_SCHEMA) && Member(doc, SchemaVersion) == Text(SOURCE_SCHEMA_VERSION)
    requires RunOk(doc, expected, pinned) && SessionOk(doc) && PreflightOk(doc) && CostOk(doc) && DistributionOk(doc)
    requires LimitsOk(doc)
    requires HasExactly(Member(doc, ProviderBlock), PROVIDER_FIELDS) && Member(doc, Attempts) == List(attempts)
    requires AttemptsOk(attempts)
    requires SharedCorpus(PublicAttempts(attempts))
    requires forall i :: 0 <= i < |PublicAttempts(attempts)| ==> DistinctIds(PublicAttempts(attempts)[i].cases)
    ensures Publishable(doc, expected, pinned)
  {
    hide RunOk, SessionOk, PreflightOk, CostOk, DistributionOk, PublicAttempts, SharedCorpus, DistinctIds, Group,
      Tabulate, Partitions;
    GroupsPartition(PublicAttempts(attempts));
    PublicCount(attempts);
  }

  // What a publishable session consists of.
  lemma PublishableParts(s: L.Session, ids: seq<string>, meta: Meta)
    requires PublishableSession(s, ids, meta)
    ensures CompletedSession(s, ids, meta) && CostMatches(s.cost, S.AllRows(s.attempts))
    ensures s.distribution.Some? && s.distribution.value.orderedK != [] && Distributed(s.distribution.value, s.attempts)
    ensures PublishableAttempts(s.attempts, ids, meta) && s.attempts != []
  {
    hide PublishableAttempts, CostMatches, Distributed;
  }

  lemma SessionIsPublishable(s: L.Session, ids: seq<string>, meta: Meta, expected: Option<string>, pinned: Pinning)
    requires PublishableSession(s, ids, meta) && MiddlesAgree(s.distribution.value.orderedK)
    requires RunOk(Object(map[RunBlock := meta.run]), expected, pinned)
    ensures Publishable(SessionJson.SessionJson(s, meta), expected, pinned)
  {
    hide *;
    var doc := SessionJson.SessionJson(s, meta);
    PublishableParts(s, ids, meta);
    Blocks(s, meta);
    SchemasMatch();
    SameRun(doc, meta, expected, pinned);
    PreflightIsOk(s, ids, meta);
    CostIsOk(s, ids, meta);
    DistributionIsOk(s, ids, meta);
    LimitsAreOk(doc, meta);
    ProviderFields(meta);
    OneCorpus(s.attempts, ids, meta);
    PassesEveryCheck(doc, expected, pinned, AttemptsJson(s.attempts, meta));
  }

  lemma PublicCount(attempts: seq<Json>)
    requires AttemptsOk(attempts)
    ensures |PublicAttempts(attempts)| == |attempts|
  {}

  lemma EstimateIsFlat(k: int, n: nat, sqrt: real -> real)
    ensures Flat(EstimateJson(k, n)) && Flat(IntervalJson(k, n, sqrt))
  {}

  lemma PublishedFields(a: A.Attempt, meta: Meta)
    requires a.Valid? && AttemptOk(SessionJson.AttemptJson(a, meta))
    ensures FlatAttempt(PublicAttemptOf(SessionJson.AttemptJson(a, meta)))
  {
    hide AttemptOk, EstimateJson, IntervalJson, RowsJson, PublicCases, SortById, CountDecision;
    EstimateIsFlat(a.k, a.n, meta.sqrt);
  }

  lemma SourcesAreFlat(attempts: seq<A.Attempt>, ids: seq<string>, meta: Meta)
    requires PublishableAttempts(attempts, ids, meta)
    ensures AttemptsOk(AttemptsJson(attempts, meta))
    ensures var public := PublicAttempts(AttemptsJson(attempts, meta));
      forall i :: 0 <= i < |public| ==> FlatAttempt(public[i])
  {
    hide AttemptOk, SessionJson.AttemptJson, PublicAttemptOf, FlatAttempt, S.SoundAttempts, FrozenCorpus, Rooted;
    AttemptsAreOk(attempts, ids, meta);
    forall i | 0 <= i < |attempts|
      ensures AttemptOk(SessionJson.AttemptJson(attempts[i], meta))
      ensures FlatAttempt(PublicAttemptOf(SessionJson.AttemptJson(attempts[i], meta)))
    {
      assert AttemptsJson(attempts, meta)[i] == SessionJson.AttemptJson(attempts[i], meta);
      PublishedFields(attempts[i], meta);
    }
  }

  // The blocks of a summary are those of its document.
  lemma SummaryBlocks(doc: Json, expected: Option<string>, pinned: Pinning, attempts: seq<Json>)
    requires Publishable(doc, expected, pinned) && Member(doc, Attempts) == List(attempts) && AttemptsOk(attempts)
    ensures var sum := SummaryOf(doc, expected, pinned);
      && sum.preflight == Member(doc, PreflightBlock) && sum.provider == Member(doc, ProviderBlock)
      && sum.session == Member(doc, SessionBlock) && sum.cost == Member(doc, CostBlock)
      && sum.distribution == Member(doc, DistributionBlock) && sum.limits == Member(doc, Limits)
      && sum.attempts == PublicAttempts(attempts)
  {
    hide SessionOk, CostOk, DistributionOk, PreflightOk, RunOk, AttemptsOk, PublicAttempts, Group, Tabulate,
      Partitions, LimitsOk;
  }

  lemma CleanSummaryIsPublished(doc: Json, expected: Option<string>, pinned: Pinning)
    requires Publishable(doc, expected, pinned)
    requires Walk(Rendering(SummaryOf(doc, expected, pinned)), FORBIDDEN_OUTPUT_KEYS)
    ensures BuildPublicSummary(doc, expected, pinned).Some?
  {
    hide Publishable, SummaryOf, Rendering, Walk, FORBIDDEN_OUTPUT_KEYS;
  }

  lemma LimitsWalk(meta: Meta)
    ensures Walk(Texts(meta.limits), FORBIDDEN_OUTPUT_KEYS)
  {
    hide *;
    TextsAreFlat(meta.limits);
    FlatWalks(Texts(meta.limits));
  }

  // A document whose distribution fails its check is refused.
  lemma BadDistributionIsRefused(doc: Json, expected: Option<string>, pinned: Pinning)
    requires SessionOk(doc) && !DistributionOk(doc)
    ensures BuildPublicSummary(doc, expected, pinned) == None
  {
    hide SessionOk, DistributionOk, RunOk, CostOk, PreflightOk, LimitsOk, SummaryOf, Walk, Partitions;
  }

  // Publishable records are accepted exactly when the middle counts agree.
  lemma SessionIsPublishedIff(s: L.Session, ids: seq<string>, meta: Meta, expected: Option<string>, pinned: Pinning)
    requires PublishableSession(s, ids, meta)
    requires RunOk(Object(map[RunBlock := meta.run]), expected, pinned) && FlatProvider(meta)
    ensures BuildPublicSummary(SessionJson.SessionJson(s, meta), expected, pinned).Some?
      <==> MiddlesAgree(s.distribution.value.orderedK)
  {
    hide *;
    PublishableParts(s, ids, meta);
    if MiddlesAgree(s.distribution.value.orderedK) {
      SessionIsPublished(s, ids, meta, expected, pinned);
    } else {
      DistributionIsOk(s, ids, meta);
      BadDistributionIsRefused(SessionJson.SessionJson(s, meta), expected, pinned);
    }
  }

  lemma SessionIsPublished(s: L.Session, ids: seq<string>, meta: Meta, expected: Option<string>, pinned: Pinning)
    requires PublishableSession(s, ids, meta) && MiddlesAgree(s.distribution.value.orderedK)
    requires RunOk(Object(map[RunBlock := meta.run]), expected, pinned) && FlatProvider(meta)
    ensures BuildPublicSummary(SessionJson.SessionJson(s, meta), expected, pinned).Some?
  {
    hide *;
    var doc, attempts := SessionJson.SessionJson(s, meta), AttemptsJson(s.attempts, meta);
    PublishableParts(s, ids, meta);
    Blocks(s, meta);
    SessionIsPublishable(s, ids, meta, expected, pinned);
    SourcesAreFlat(s.attempts, ids, meta);
    SummaryBlocks(doc, expected, pinned, attempts);
    PreflightWalks(s, meta);
    ProviderWalks(meta);
    SessionBlockWalks(s, meta);
    CostWalks(s, meta);
    DistributionWalks(s.distribution.value, meta);
    LimitsWalk(meta);
    RenderingWalks(SummaryOf(doc, expected, pinned));
    CleanSummaryIsPublished(doc, expected, pinned);
  }

  // ----- refusal -----

  lemma OnlyValidAttemptsHaveK(a: A.Attempt, meta: Meta)
    requires !a.Valid?
    ensures !HasExactly(SessionJson.AttemptJson(a, meta), ATTEMPT_FIELDS)
  {
    assert HitsK in ATTEMPT_FIELDS;
    hide RowsJson, StageNames, KindNames, Texts, ATTEMPT_FIELDS;
    assert HitsK !in SessionJson.AttemptJson(a, meta).fields.Keys;
  }

  // A record with any attempt that is not valid is refused.
  lemma AnyInvalidAttemptIsRefused(s: L.Session, i: nat, meta: Meta, expected: Option<string>, pinned: Pinning)
    requires i < |s.attempts| && !s.attempts[i].Valid?
    ensures BuildPublicSummary(SessionJson.SessionJson(s, meta), expected, pinned) == None
  {
    hide SessionJson.AttemptJson, CostOk, DistributionOk, RunOk, PreflightOk, LimitsOk, SummaryOf, Walk,
      SharedCorpus, PublicAttempts;
    OnlyValidAttemptsHaveK(s.attempts[i], meta);
    AttemptsMember(s, meta);
    assert AttemptsJson(s.attempts, meta)[i] == SessionJson.AttemptJson(s.attempts[i], meta);
    assert !AttemptOk(SessionJson.AttemptJson(s.attempts[i], meta));
    assert !AttemptsOk(AttemptsJson(s.attempts, meta));
  }

  lemma AttemptsMember(s: L.Session, meta: Meta)
    ensures Member(SessionJson.SessionJson(s, meta), Attempts) == List(AttemptsJson(s.attempts, meta))
  {
    hide SessionBlockJson, PreflightJson, ProviderJson, CostJson, AttemptsJson, DistributionJson, Texts;
  }

  // ----- the session loop -----

  lemma KsOfAttempts(attempts: seq<A.Attempt>)
    requires attempts != [] && forall i :: 0 <= i < |attempts| ==> attempts[i].Valid?
    ensures Distributed(L.DistributionOf(attempts), attempts)
  {}

  lemma FromZero(m: Meter, start: Meter, rows: seq<A.CaseRow>)
    requires Acc.MatchesRows(m, start, rows) && IsFresh(start)
    requires m.total == m.byStage.Sum()
    ensures CostMatches(m, rows)
  {}

  lemma RecordIsPublishable(run: L.SessionRun, pol: L.Policy, ids: seq<string>, meta: Meta, ceiling: nat, start: Meter)
    requires IsFresh(start) && pol.target >= 1 && S.Explains(run, pol.target, pol.replacements)
    requires S.Balanced(run, start, ceiling) && S.SoundAttempts(run.attempts, ids)
    requires FrozenCorpus(ids) && Rooted(meta.sqrt) && run.terminal.Completed? && run.replacements == 0
    ensures PublishableSession(L.Record(run, pol, |ids|), ids, meta)
    ensures |L.Record(run, pol, |ids|).distribution.value.orderedK| == pol.target
  {
    hide S.SoundAttempts, FrozenCorpus, Rooted, Distributed, CostMatches, L.DistributionOf, Acc.MatchesRows;
    S.CompletedWithoutReplacement(run, pol.target, pol.replacements);
    KsOfAttempts(run.attempts);
    FromZero(run.meter, start, S.AllRows(run.attempts));
    DistributionSize(run.attempts);
  }

  lemma DistributionSize(attempts: seq<A.Attempt>)
    requires attempts != [] && forall i :: 0 <= i < |attempts| ==> attempts[i].Valid?
    ensures |L.DistributionOf(attempts).orderedK| == |attempts|
  {}

  // The record of a session.
  function RecordOf(w: A.World, pre: A.Preflight, pol: L.Policy, ceiling: nat, start: Meter): L.Session {
    L.Record(L.SessionOf(w, pre, pol, ceiling, start), pol, |pre.ids|)
  }

  // A policy has one attempt slot for each target and each replacement, as the shipped one does.
  predicate Slotted(pol: L.Policy) {
    pol.target >= 1 && pol.maxAttempts == pol.target + pol.replacements
  }

  lemma ShippedPolicyIsSlotted()
    ensures Slotted(L.SESSION_POLICY) && L.SESSION_POLICY.target % 2 == 1
  {}

  // Whatever the provider did, for every target: a session that completed over the frozen corpus
  // without replacing an attempt passes every check of the public summary exactly when its middle
  // counts agree.
  lemma CompletedIsPublishedIff(w: A.World, pre: A.Preflight, pol: L.Policy, ceiling: nat, start: Meter,
        meta: Meta, expected: Option<string>, pinned: Pinning)
    requires IsFresh(start) && FailClosed.Vetted(pre.config.registry) && FrozenCorpus(pre.ids) && Slotted(pol)
    requires Presentable(meta, expected, pinned)
    ensures var s := RecordOf(w, pre, pol, ceiling, start);
      s.terminal.Completed? && s.replacementsUsed == 0 ==>
        && s.distribution.Some? && |s.distribution.value.orderedK| == pol.target
        && (BuildPublicSummary(SessionJson.SessionJson(s, meta), expected, pinned).Some?
            <==> MiddlesAgree(s.distribution.value.orderedK))
  {
    hide L.SessionOf, S.Explains, S.Balanced, FrozenCorpus, FailClosed.Vetted, SessionJson.SessionJson,
      BuildPublicSummary, PublishableSession, Rooted, FlatProvider, RunOk, MiddlesAgree;
    var run := L.SessionOf(w, pre, pol, ceiling, start);
    if run.terminal.Completed? && run.replacements == 0 {
      var s := RecordOf(w, pre, pol, ceiling, start);
      S.SessionOutcome(w, pre, pol, ceiling, start);
      S.SessionCost(w, pre, pol, ceiling, start);
      S.SessionAttemptsAreSound(w, pre, pol, ceiling, start);
      RecordIsPublishable(run, pol, pre.ids, meta, ceiling, start);
      PublishableParts(s, pre.ids, meta);
      SessionIsPublishedIff(s, pre.ids, meta, expected, pinned);
    }
  }

  // For an odd target, as the shipped one is, they always agree.
  lemma CompletedWithoutReplacementIsPublished(w: A.World, pre: A.Preflight, pol: L.Policy, ceiling: nat, start: Meter,
        meta: Meta, expected: Option<string>, pinned: Pinning)
    requires IsFresh(start) && FailClosed.Vetted(pre.config.registry) && FrozenCorpus(pre.ids) && Slotted(pol)
    requires Presentable(meta, expected, pinned) && pol.target % 2 == 1
    ensures var s := RecordOf(w, pre, pol, ceiling, start);
      s.terminal.Completed? && s.replacementsUsed == 0
      ==> BuildPublicSummary(SessionJson.SessionJson(s, meta), expected, pinned).Some?
  {
    hide RecordOf, FrozenCorpus, FailClosed.Vetted, SessionJson.SessionJson, BuildPublicSummary, Presentable, IsFresh;
    CompletedIsPublishedIff(w, pre, pol, ceiling, start, meta, expected, pinned);
  }

  lemma {:induction false} SomeContaminated(attempts: seq<A.Attempt>) returns (i: nat)
    requires S.CountContaminated(attempts) > 0
    ensures i < |attempts| && attempts[i].Contaminated?
  {
    if attempts[|attempts| - 1].Contaminated? {
      i := |attempts| - 1;
    } else {
      i := SomeContaminated(attempts[..|attempts| - 1]);
    }
  }

  // A session that replaced an attempt is refused, even when it completed.
  lemma ReplacedAttemptIsRefused(w: A.World, pre: A.Preflight, pol: L.Policy, ceiling: nat, start: Meter,
        meta: Meta, expected: Option<string>, pinned: Pinning)
    requires Slotted(pol)
    ensures var s := RecordOf(w, pre, pol, ceiling, start);
      s.replacementsUsed > 0 ==> BuildPublicSummary(SessionJson.SessionJson(s, meta), expected, pinned) == None
  {
    hide L.SessionOf, SessionJson.SessionJson, BuildPublicSummary, L.CountValid;
    var run := L.SessionOf(w, pre, pol, ceiling, start);
    S.SessionOutcome(w, pre, pol, ceiling, start);
    if run.replacements > 0 {
      var i := SomeContaminated(run.attempts);
      AnyInvalidAttemptIsRefused(RecordOf(w, pre, pol, ceiling, start), i, meta, expected, pinned);
    }
  }

  // Only completed sessions are published.
  lemma OnlyCompletedIsPublished(w: A.World, pre: A.Preflight, pol: L.Policy, ceiling: nat, start: Meter,
        meta: Meta, expected: Option<string>, pinned: Pinning)
    requires Slotted(pol)
    ensures var s := RecordOf(w, pre, pol, ceiling, start);
      BuildPublicSummary(SessionJson.SessionJson(s, meta), expected, pinned).Some?
      ==> s.terminal.Completed? && s.replacementsUsed == 0
  {
    hide L.SessionOf, SessionJson.SessionJson, BuildPublicSummary, L.CountValid, S.CountContaminated;
    var run := L.SessionOf(w, pre, pol, ceiling, start);
    var s := RecordOf(w, pre, pol, ceiling, start);
    S.SessionOutcome(w, pre, pol, ceiling, start);
    ReplacedAttemptIsRefused(w, pre, pol, ceiling, start, meta, expected, pinned);
    if !run.terminal.Completed? {
      AnyInvalidAttemptIsRefused(s, |run.attempts| - 1, meta, expected, pinned);
    }
  }
}
