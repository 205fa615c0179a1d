/** When a session document is published: exactly when its blocks have the pinned shape and words, its
    attempts cover the frozen corpus, its numbers add up, and nothing private is copied. */
module PublicationConditions {
  import opened Contracts
  import opened Json
  import opened PublicSummary
  import opened SummaryTheorems
  import opened SummaryMeaning
  import opened SummaryChecks

  // ----- the other blocks -----

  ghost predicate GoodRun(run: Json, expected: Option<string>, pinned: Pinning) {
    && run.Object?
    && run.fields.Keys
       == {Git, HarnessVersion, PackageVersions, PythonExecutable, PythonVersion, RunId, RunType, TimestampUtc}
    && run.fields[RunType] == Text("redteam_live_triage")
    && run.fields[Git].Object? && run.fields[Git].fields.Keys == {CommitSha, Dirty}
    && run.fields[Git].fields[Dirty].Boolean?
    && run.fields[Git].fields[CommitSha].Text? && |run.fields[Git].fields[CommitSha].text| > 0
    && exists id :: run.fields[RunId] == Text(id) && PinnedAs(id, pinned) && (expected == None || expected == Some(id))
  }

  ghost predicate PinnedAs(id: string, pinned: Pinning) {
    && id in pinned.pins && pinned.pins[id].json == pinned.digests.json && pinned.pins[id].md == pinned.digests.md
  }

  lemma GoodRunIff(doc: Json, expected: Option<string>, pinned: Pinning)
    ensures RunOk(doc, expected, pinned) <==> GoodRun(Member(doc, RunBlock), expected, pinned)
  {
    var run := Member(doc, RunBlock);
    if RunOk(doc, expected, pinned) {
      assert PinnedAs(run.fields[RunId].text, pinned);
    }
  }

  ghost predicate GoodSession(session: Json, n: nat) {
    && session.Object?
    && session.fields.Keys
       == {AttemptsMade, EndedUtc, InvalidAttempts, MaxAttempts, MaxReplacements, ReplacementsUsed, StartedUtc,
           TargetValidAttempts, TerminalState, ValidAttempts}
    && session.fields[TerminalState] == Text("completed") && NumberIs(session.fields[ValidAttempts], n)
  }

  ghost predicate GoodPreflight(preflight: Json) {
    && preflight.Object?
    && preflight.fields.Keys == {CasesVerified, CorpusHash, FrozenContractVerified, PromotedRulesHash}
    && preflight.fields[FrozenContractVerified] == Boolean(true) && NumberIs(preflight.fields[CasesVerified], 30)
  }

  ghost predicate GoodProvider(provider: Json) {
    && provider.Object?
    && provider.fields.Keys
       == {CoverageCatalogPrompt, LogicalCallUpperBound, MaxTokens, Model, ProviderAttemptTimeout, SdkMaxRetries,
           SeedNote, SynthesisPrompt, Temperature, TimeoutScopeNote, TriagePrompt, WrapperBackoffSchedule,
           WrapperJitterCap, WrapperMaxAttempts}
  }

  ghost predicate GoodLimits(limits: Json) {
    limits.List? && forall j :: j in limits.items ==> j.Text?
  }

  lemma GoodLimitsIff(doc: Json)
    ensures LimitsOk(doc) <==> GoodLimits(Member(doc, Limits))
  {
    var limits := Member(doc, Limits);
    if GoodLimits(limits) {
      forall i | 0 <= i < |limits.items| ensures limits.items[i].Text? { assert limits.items[i] in limits.items; }
    }
  }

  lemma GoodSessionIff(doc: Json)
    ensures SessionOk(doc)
      <==> && Member(doc, Attempts).List? && Member(doc, Attempts).items != []
           && GoodAttempts(Member(doc, Attempts).items)
           && GoodSession(Member(doc, SessionBlock), |Member(doc, Attempts).items|)
  {
    hide AttemptsOk, SharedCorpus, GoodAttempts, PublicAttempts;
    if Member(doc, Attempts).List? && Member(doc, Attempts).items != [] {
      GoodAttemptsIff(Member(doc, Attempts).items);
    }
  }

  // The repeat structure of attempts over the whole corpus is never refused.
  lemma RepeatsAreAccepted(attempts: seq<Json>)
    requires AttemptsOk(attempts) && SharedCorpus(PublicAttempts(attempts))
    ensures Partitions(Group(Tabulate(PublicAttempts(attempts)), |attempts|))
  {
    hide AttemptOk, PublicAttemptOf, SharedCorpus, Partitions, Group, Tabulate, Sane;
    SanePublication(attempts);
    SaneAttempts(PublicAttempts(attempts));
    assert |PublicAttempts(attempts)| == |attempts|;
    GroupsPartition(PublicAttempts(attempts));
  }

  // ----- nothing private is copied -----

  // The keys that stay out of the public document.
  ghost predicate Private(k: Key) {
    k in {Detail, FieldsInvolved, ProposalNote, Reasoning, TriageConcerns, Findings, SystemFindings, ContentNote,
          ContentProvenance, PythonExecutable}
  }

  // No private key at any depth.
  ghost predicate Clean(j: Json) {
    forall k :: k in KeysIn(j) ==> !Private(k)
  }

  lemma CleanIff(j: Json)
    ensures Walk(j, FORBIDDEN_OUTPUT_KEYS) <==> Clean(j)
  {
    hide Walk, KeysIn;
    WalkFindsEveryKey(j, FORBIDDEN_OUTPUT_KEYS);
  }

  // What is copied as it stands holds no private key.
  ghost predicate Discreet(doc: Json) {
    && (forall block :: block in {PreflightBlock, ProviderBlock, SessionBlock, CostBlock, DistributionBlock} ==>
          Clean(Member(doc, block)))
    && (Member(doc, Attempts).List? ==>
          forall a :: a in Member(doc, Attempts).items ==> DiscreetAttempt(a))
  }

  ghost predicate DiscreetAttempt(a: Json) {
    Clean(Member(a, Index)) && Clean(Member(a, StartedUtc)) && Clean(Member(a, EndedUtc))
  }

  lemma TextsWalk(ts: seq<string>)
    ensures Walk(Texts(ts), FORBIDDEN_OUTPUT_KEYS)
  {
    TextsIsList(ts);
  }

  lemma CaseWalks(c: PublicCase)
    ensures Walk(PublicCaseJson(c), FORBIDDEN_OUTPUT_KEYS)
  {
    hide Texts, Walk, FORBIDDEN_OUTPUT_KEYS;
    var fields := PublicCaseJson(c).fields;
    TextsWalk(c.severityCodes);
    CaseKeysArePublic(c);
    ObjectWalks(fields);
    forall k | k in fields.Keys && k != TriageSeverityCodes ensures Walk(fields[k], FORBIDDEN_OUTPUT_KEYS) {
      LeafWalks(fields[k]);
    }
  }

  lemma CaseKeysArePublic(c: PublicCase)
    ensures PublicCaseJson(c).fields.Keys !! FORBIDDEN_OUTPUT_KEYS
  {
    hide Texts;
  }

  lemma CasesWalk(cases: seq<PublicCase>)
    ensures Walk(PublicCasesJson(cases), FORBIDDEN_OUTPUT_KEYS)
  {
    hide PublicCaseJson, FORBIDDEN_OUTPUT_KEYS;
    forall i | 0 <= i < |cases| ensures Walk(PublicCaseJson(cases[i]), FORBIDDEN_OUTPUT_KEYS) {
      CaseWalks(cases[i]);
    }
  }

  lemma CountsWalk(a: PublicAttempt)
    ensures Walk(DecisionCounts(a), FORBIDDEN_OUTPUT_KEYS)
  {}

  lemma RepeatsWalk(r: RepeatStructure)
    ensures Walk(RepeatsJson(r), FORBIDDEN_OUTPUT_KEYS)
  {
    hide GroupJson;
    GroupWalks(r.always);
    GroupWalks(r.sometimes);
    GroupWalks(r.never);
    GroupWalks(r.varied);
  }

  lemma GroupWalks(ids: set<string>)
    ensures Walk(GroupJson(ids), FORBIDDEN_OUTPUT_KEYS)
  {
    hide Texts, InOrder;
    TextsWalk(InOrder(ids, EXPECTED_CASE_COUNT));
  }

  lemma DerivationWalks(s: Summary)
    ensures Walk(DerivationJson(s), FORBIDDEN_OUTPUT_KEYS)
  {
    hide DigestsJson;
    DigestsWalk(s.digests);
  }

  lemma DigestsWalk(d: Digests)
    ensures Walk(DigestsJson(d), FORBIDDEN_OUTPUT_KEYS)
  {}

  ghost predicate Leaf(j: Json) {
    !j.Object? && !j.List?
  }

  lemma LeafWalks(j: Json)
    requires Leaf(j)
    ensures Walk(j, FORBIDDEN_OUTPUT_KEYS)
  {}

  lemma ObjectWalks(fields: map<Key, Json>)
    requires fields.Keys !! FORBIDDEN_OUTPUT_KEYS
    ensures Walk(Object(fields), FORBIDDEN_OUTPUT_KEYS)
      <==> forall k :: k in fields.Keys ==> Walk(fields[k], FORBIDDEN_OUTPUT_KEYS)
  {
    hide FORBIDDEN_OUTPUT_KEYS;
  }

  const PUBLIC_ATTEMPT_KEYS: set<Key> :=
    {Index, Validity, StartedUtc, EndedUtc, HitsK, SizeN, RecordedPointEstimate, RecordedWilsonCi95,
     FinalDecisionCounts, Cases}

  lemma AttemptKeysAre(a: PublicAttempt)
    ensures PublicAttemptJson(a).Object? && PublicAttemptJson(a).fields.Keys == PUBLIC_ATTEMPT_KEYS
  {
    hide DecisionCounts, PublicCasesJson;
  }

  lemma AttemptKeysArePublic()
    ensures PUBLIC_ATTEMPT_KEYS !! FORBIDDEN_OUTPUT_KEYS
  {}

  lemma AttemptFields(a: PublicAttempt)
    requires PublicAttemptJson(a).Object? && PUBLIC_ATTEMPT_KEYS <= PublicAttemptJson(a).fields.Keys
    ensures var f := PublicAttemptJson(a).fields;
      && f[Index] == a.index && f[Validity].Text? && f[StartedUtc] == a.started && f[EndedUtc] == a.ended
      && f[HitsK] == a.k && f[SizeN] == a.n && f[RecordedPointEstimate] == a.point
      && f[RecordedWilsonCi95] == a.interval && f[FinalDecisionCounts] == DecisionCounts(a)
      && f[Cases] == PublicCasesJson(a.cases)
  {
    hide DecisionCounts, PublicCasesJson;
  }

  lemma AttemptWalks(a: PublicAttempt)
    requires Leaf(a.k) && Leaf(a.n) && Leaf(a.point) && Interval(a.interval)
    ensures Walk(PublicAttemptJson(a), FORBIDDEN_OUTPUT_KEYS) <==> Clean(a.index) && Clean(a.started) && Clean(a.ended)
  {
    hide DecisionCounts, PublicCasesJson, Clean, Walk, PublicAttemptJson, FORBIDDEN_OUTPUT_KEYS, Interval, Leaf;
    AttemptKeysAre(a);
    AttemptKeysArePublic();
    AttemptFields(a);
    ObjectWalks(PublicAttemptJson(a).fields);
    CasesWalk(a.cases);
    CountsWalk(a);
    LeafWalks(a.k);
    LeafWalks(a.n);
    LeafWalks(a.point);
    TextWalks(PublicAttemptJson(a).fields[Validity]);
    IntervalWalks(a.interval);
    CleanIff(a.index);
    CleanIff(a.started);
    CleanIff(a.ended);
  }

  lemma TextWalks(j: Json)
    requires j.Text?
    ensures Walk(j, FORBIDDEN_OUTPUT_KEYS)
  {}

  lemma IntervalWalks(j: Json)
    requires Interval(j)
    ensures Walk(j, FORBIDDEN_OUTPUT_KEYS)
  {
    forall i | 0 <= i < |j.items| ensures Walk(j.items[i], FORBIDDEN_OUTPUT_KEYS) {}
  }

  lemma AttemptsWalk(attempts: seq<Json>)
    requires AttemptsOk(attempts)
    ensures Walk(PublicAttemptsJson(PublicAttempts(attempts)), FORBIDDEN_OUTPUT_KEYS)
      <==> forall a :: a in attempts ==> DiscreetAttempt(a)
  {
    hide AttemptOk, PublicAttemptOf, PublicAttemptJson, DiscreetAttempt, FORBIDDEN_OUTPUT_KEYS;
    var ps := PublicAttemptsJson(PublicAttempts(attempts)).items;
    assert |ps| == |attempts|;
    forall i | 0 <= i < |attempts| ensures Walk(ps[i], FORBIDDEN_OUTPUT_KEYS) <==> DiscreetAttempt(attempts[i]) {
      assert ps[i] == PublicAttemptJson(PublicAttemptOf(attempts[i]));
      OneAttemptWalks(attempts[i]);
    }
    if forall a :: a in attempts ==> DiscreetAttempt(a) {
      forall i | 0 <= i < |attempts| ensures Walk(ps[i], FORBIDDEN_OUTPUT_KEYS) { assert attempts[i] in attempts; }
    }
  }

  lemma OneAttemptWalks(a: Json)
    requires AttemptOk(a)
    ensures Walk(PublicAttemptJson(PublicAttemptOf(a)), FORBIDDEN_OUTPUT_KEYS)
      <==> DiscreetAttempt(a)
  {
    hide Walk, PublicAttemptJson, FORBIDDEN_OUTPUT_KEYS, Clean, CasesOk, PublicCases, CountIntervened, SortById,
      CountDecision, DistinctIds, IsClose, OrderedPair, Interval;
    IntervalIff(a.fields[WilsonCi95]);
    AttemptWalks(PublicAttemptOf(a));
  }

  lemma LimitsWalk(limits: Json)
    requires GoodLimits(limits)
    ensures Walk(limits, FORBIDDEN_OUTPUT_KEYS)
  {
    forall i | 0 <= i < |limits.items| ensures Walk(limits.items[i], FORBIDDEN_OUTPUT_KEYS) {
      assert limits.items[i] in limits.items;
    }
  }

  const PUBLIC_KEYS: set<Key> :=
    {Schema, Derivation, PreflightBlock, ProviderBlock, SessionBlock, CostBlock, Attempts, RepeatStructureBlock,
     DistributionBlock, Limits}

  lemma DocumentKeysArePublic()
    ensures PUBLIC_KEYS !! FORBIDDEN_OUTPUT_KEYS
  {}

  // The walk over the finished document refuses it exactly for a private key in what was copied.
  lemma DiscreetIff(doc: Json, expected: Option<string>, pinned: Pinning)
    requires Publishable(doc, expected, pinned)
    ensures Walk(Rendering(SummaryOf(doc, expected, pinned)), FORBIDDEN_OUTPUT_KEYS) <==> Discreet(doc)
  {
    hide *;
    var s := SummaryOf(doc, expected, pinned);
    DocumentCorpus(doc, expected, pinned);
    BlocksOf(doc, expected, pinned);
    LimitsOfSource(doc, expected, pinned);
    LimitsWalk(s.limits);
    AttemptsWalk(Member(doc, Attempts).items);
    RepeatsWalk(s.repeats);
    DerivationWalks(s);
    DocumentWalks(s);
    DiscreetMeans(doc);
    forall block | block in {PreflightBlock, ProviderBlock, SessionBlock, CostBlock, DistributionBlock}
      ensures Walk(Member(doc, block), FORBIDDEN_OUTPUT_KEYS) <==> Clean(Member(doc, block))
    {
      CleanIff(Member(doc, block));
    }
  }

  lemma LimitsOfSource(doc: Json, expected: Option<string>, pinned: Pinning)
    requires Publishable(doc, expected, pinned)
    ensures GoodLimits(Member(doc, Limits))
  {
    hide RunOk, SessionOk, PreflightOk, CostOk, DistributionOk, LimitsOk, Group, Tabulate, PublicAttempts, Partitions;
    GoodLimitsIff(doc);
  }

  lemma DiscreetMeans(doc: Json)
    requires Member(doc, Attempts).List?
    ensures Discreet(doc)
      <==> && (forall block :: block in {PreflightBlock, ProviderBlock, SessionBlock, CostBlock, DistributionBlock}
                 ==> Clean(Member(doc, block)))
           && (forall a :: a in Member(doc, Attempts).items ==> DiscreetAttempt(a))
  {
    hide Clean, Member, DiscreetAttempt;
  }

  lemma DocumentWalks(s: Summary)
    requires Walk(s.limits, FORBIDDEN_OUTPUT_KEYS) && Walk(RepeatsJson(s.repeats), FORBIDDEN_OUTPUT_KEYS)
    requires Walk(DerivationJson(s), FORBIDDEN_OUTPUT_KEYS)
    ensures Walk(Rendering(s), FORBIDDEN_OUTPUT_KEYS)
      <==> && Walk(s.preflight, FORBIDDEN_OUTPUT_KEYS) && Walk(s.provider, FORBIDDEN_OUTPUT_KEYS)
           && Walk(s.session, FORBIDDEN_OUTPUT_KEYS) && Walk(s.cost, FORBIDDEN_OUTPUT_KEYS)
           && Walk(s.distribution, FORBIDDEN_OUTPUT_KEYS)
           && Walk(PublicAttemptsJson(s.attempts), FORBIDDEN_OUTPUT_KEYS)
  {
    hide Walk, Rendering, RepeatsJson, DerivationJson, PublicAttemptsJson, FORBIDDEN_OUTPUT_KEYS;
    RenderedKeys(s);
    RenderedFields(s);
    DocumentKeysArePublic();
    ObjectWalks(Rendering(s).fields);
    TextWalks(Rendering(s).fields[Schema]);
  }

  // ----- acceptance -----

  // What a session document must be, to be published.
  ghost predicate Acceptable(doc: Json, expected: Option<string>, pinned: Pinning) {
    && Member(doc, Schema) == Text("redteam_live_session") && Member(doc, SchemaVersion) == Text("1.0.0")
    && GoodRun(Member(doc, RunBlock), expected, pinned) && GoodPreflight(Member(doc, PreflightBlock))
    && GoodProvider(Member(doc, ProviderBlock)) && GoodLimits(Member(doc, Limits))
    && Member(doc, Attempts).List?
    && var attempts := Member(doc, Attempts).items;
    && attempts != [] && GoodAttempts(attempts) && GoodSession(Member(doc, SessionBlock), |attempts|)
    && GoodCost(Member(doc, CostBlock), attempts) && GoodDistribution(Member(doc, DistributionBlock), attempts)
    && Discreet(doc)
  }

  lemma CheckedIff(doc: Json, expected: Option<string>, pinned: Pinning)
    ensures Publishable(doc, expected, pinned) && Discreet(doc) <==> Acceptable(doc, expected, pinned)
  {
    hide RunOk, SessionOk, CostOk, DistributionOk, LimitsOk, Partitions, Group, Tabulate, PublicAttempts, GoodRun,
      GoodAttempts, GoodSession, GoodCost, GoodDistribution, GoodLimits, Discreet;
    GoodRunIff(doc, expected, pinned);
    GoodSessionIff(doc);
    GoodLimitsIff(doc);
    if SessionOk(doc) {
      GoodCostIff(doc);
      GoodDistributionIff(doc);
      SessionRepeats(doc);
    }
  }

  lemma SessionRepeats(doc: Json)
    requires SessionOk(doc)
    ensures var attempts := Member(doc, Attempts).items;
      AttemptsOk(attempts) && Partitions(Group(Tabulate(PublicAttempts(attempts)), |attempts|))
  {
    hide AttemptsOk, SharedCorpus, Partitions, Group, Tabulate, PublicAttempts;
    RepeatsAreAccepted(Member(doc, Attempts).items);
  }

  // A session document is published if and only if it is acceptable.
  lemma AcceptedIff(doc: Json, expected: Option<string>, pinned: Pinning)
    ensures BuildPublicSummary(doc, expected, pinned).Some? <==> Acceptable(doc, expected, pinned)
  {
    hide Publishable, Acceptable, Discreet, Walk, Rendering, SummaryOf;
    CheckedIff(doc, expected, pinned);
    if Publishable(doc, expected, pinned) {
      DiscreetIff(doc, expected, pinned);
    }
  }
}
