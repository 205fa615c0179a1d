/** The public summary of a live session: every block projected through an exact key set, every
    published scalar checked, and the whole document walked for forbidden keys. A document is
    either summarized or refused; the reason of a refusal is not modelled. */
module PublicSummary {
  import opened Contracts
  import opened Reals
  import opened Json
  import Statistics

  // ----- pins and allowlists -----

  const SOURCE_SCHEMA := "redteam_live_session"
  const SOURCE_SCHEMA_VERSION := "1.0.0"
  const SOURCE_RUN_TYPE := "redteam_live_triage"
  const COMPLETED := "completed"
  const VALID := "valid"
  const INTERVENTION := "intervention"
  const NON_INTERVENTION := "non_intervention"
  const EXPECTED_CASE_COUNT: nat := 30

  const RUN_FIELDS: set<Key> :=
    {Git, HarnessVersion, PackageVersions, PythonExecutable, PythonVersion, RunId, RunType, TimestampUtc}
  const GIT_FIELDS: set<Key> := {CommitSha, Dirty}
  const SESSION_FIELDS: set<Key> :=
    {AttemptsMade, EndedUtc, InvalidAttempts, MaxAttempts, MaxReplacements, ReplacementsUsed,
     StartedUtc, TargetValidAttempts, TerminalState, ValidAttempts}
  const PREFLIGHT_FIELDS: set<Key> := {CasesVerified, CorpusHash, FrozenContractVerified, PromotedRulesHash}
  const PROVIDER_FIELDS: set<Key> :=
    {CoverageCatalogPrompt, LogicalCallUpperBound, MaxTokens, Model, ProviderAttemptTimeout,
     SdkMaxRetries, SeedNote, SynthesisPrompt, Temperature, TimeoutScopeNote, TriagePrompt, WrapperBackoffSchedule,
     WrapperJitterCap, WrapperMaxAttempts}
  const COST_FIELDS: set<Key> := {ActualCalls, CallsByStage, CeilingNote, MaxCallsPerCase, MaxCallsPerCleanAttempt,
    RetriesByStage, SessionCallCeiling}
  const STAGE_FIELDS: set<Key> := {AiTriageStage, SynthesizeStage}
  const DISTRIBUTION_FIELDS: set<Key> := {MaxK, MedianK, MinK, SizeN, OrderedK, OrderedRates, PoolingNote}
  const ATTEMPT_FIELDS: set<Key> := {Cases, EndedUtc, Index, HitsK, SizeN, PointEstimate, StartedUtc, Type, WilsonCi95}
  const SOURCE_CASE_FIELDS: set<Key> :=
    {AppropriateAction, CaseId, ClassificationKey, FinalDecision, Findings, GuardrailOverrode,
     ProposalDecision, ProposalNote, ProviderCalls, RetriesByStage, SystemFindings, TriageConcerns}

  const FORBIDDEN_OUTPUT_KEYS: set<Key> :=
    {Detail, FieldsInvolved, ProposalNote, Reasoning, TriageConcerns, Findings, SystemFindings,
     ContentNote, ContentProvenance, PythonExecutable}

  function Digit(i: nat): char
    requires i < 10
  {
    ['0', '1', '2', '3', '4', '5', '6', '7', '8', '9'][i]
  }

  function FrozenId(i: nat): string
    requires i < 100
  {
    ['r', 't', '_', Digit(i / 10), Digit(i % 10)]
  }

  function FrozenIds(n: nat): set<string>
    requires n < 100
  {
    if n == 0 then {} else FrozenIds(n - 1) + {FrozenId(n)}
  }

  // The frozen corpus.
  function ExpectedCaseIds(): set<string> {
    FrozenIds(EXPECTED_CASE_COUNT)
  }

  // ----- one case -----

  datatype PublicCase = PublicCase(
    id: string, intervened: bool, decision: string, severityCodes: seq<string>, systemFindings: nat, providerCalls: nat,
    proposal: string, overrode: bool)

  predicate IsDecision(j: Json) {
    j == Text("approve") || j == Text("escalate") || j == Text("request_more_info")
  }

  predicate IsConcern(j: Json) {
    j.Object? && (Member(j, CodeKey) == Text("X1") || Member(j, CodeKey) == Text("X2"))
  }

  predicate StageCounts(j: Json) {
    HasExactly(j, STAGE_FIELDS) && IsCount(j.fields[AiTriageStage]) && IsCount(j.fields[SynthesizeStage])
  }

  predicate CaseOk(c: Json) {
    && HasExactly(c, SOURCE_CASE_FIELDS)
    && c.fields[CaseId].Text? && c.fields[CaseId].text in ExpectedCaseIds()
    && (c.fields[ClassificationKey] == Text(INTERVENTION) || c.fields[ClassificationKey] == Text(NON_INTERVENTION))
    && IsDecision(c.fields[FinalDecision]) && IsDecision(c.fields[ProposalDecision])
    && c.fields[GuardrailOverrode].Boolean? && IsCount(c.fields[ProviderCalls])
    && c.fields[TriageConcerns].List?
    && (forall i :: 0 <= i < |c.fields[TriageConcerns].items| ==> IsConcern(c.fields[TriageConcerns].items[i]))
    && c.fields[SystemFindings].List? && StageCounts(c.fields[RetriesByStage])
  }

  predicate Mentions(concerns: seq<Json>, code: string) {
    exists i :: 0 <= i < |concerns| && Member(concerns[i], CodeKey) == Text(code)
  }

  // The distinct codes, sorted.
  function SeverityCodes(concerns: seq<Json>): seq<string> {
    (if Mentions(concerns, "X1") then ["X1"] else []) + (if Mentions(concerns, "X2") then ["X2"] else [])
  }

  // _public_case, of a case that passed its checks
  function PublicCaseOf(c: Json): PublicCase
    requires CaseOk(c)
  {
    PublicCase(c.fields[CaseId].text, c.fields[ClassificationKey] == Text(INTERVENTION), c.fields[FinalDecision].text,
      SeverityCodes(c.fields[TriageConcerns].items), |c.fields[SystemFindings].items|, c.fields[ProviderCalls].int_,
      c.fields[ProposalDecision].text, c.fields[GuardrailOverrode].value)
  }

  // ----- one attempt -----

  predicate CasesOk(cases: seq<Json>) {
    forall i :: 0 <= i < |cases| ==> CaseOk(cases[i])
  }

  function PublicCases(cases: seq<Json>): seq<PublicCase>
    requires CasesOk(cases)
  {
    seq(|cases|, i requires 0 <= i < |cases| => PublicCaseOf(cases[i]))
  }

  predicate DistinctIds(cases: seq<PublicCase>) {
    forall i, k :: 0 <= i < k < |cases| ==> cases[i].id != cases[k].id
  }

  function CountIntervened(cases: seq<PublicCase>): nat {
    if cases == [] then 0 else CountIntervened(cases[..|cases| - 1]) + if cases[|cases| - 1].intervened then 1 else 0
  }

  // math.isclose with both tolerances at 1e-12
  predicate IsClose(a: real, b: real) {
    Abs(a - b) <= 0.000000000001 * Abs(a) || Abs(a - b) <= 0.000000000001 * Abs(b) || Abs(a - b) <= 0.000000000001
  }

  predicate OrderedPair(j: Json) {
    j.List? && |j.items| == 2 && IsNumber(j.items[0]) && IsNumber(j.items[1])
    && Number(j.items[0]).value <= Number(j.items[1]).value
  }

  // A zero n fails on the division, hence is refused as well.
  predicate RateOk(a: Json, cases: seq<PublicCase>)
    requires HasExactly(a, ATTEMPT_FIELDS)
  {
    && DistinctIds(cases) && NumberIs(a.fields[SizeN], |cases|) && NumberIs(a.fields[HitsK], CountIntervened(cases))
    && |cases| > 0 && IsNumber(a.fields[PointEstimate])
    && IsClose(Number(a.fields[PointEstimate]).value, CountIntervened(cases) as real / |cases| as real)
    && OrderedPair(a.fields[WilsonCi95])
  }

  predicate AttemptOk(a: Json) {
    && HasExactly(a, ATTEMPT_FIELDS) && a.fields[Type] == Text(VALID)
    && a.fields[Cases].List? && CasesOk(a.fields[Cases].items)
    && RateOk(a, PublicCases(a.fields[Cases].items))
  }

  predicate Before(a: string, b: string) {
    if a == "" then true else if b == "" then false else if a[0] != b[0] then a[0] < b[0] else Before(a[1..], b[1..])
  }

  function InsertCase(c: PublicCase, cases: seq<PublicCase>): seq<PublicCase> {
    if cases == [] || Before(c.id, cases[0].id) then [c] + cases else [cases[0]] + InsertCase(c, cases[1..])
  }

  function SortById(cases: seq<PublicCase>): seq<PublicCase> {
    if cases == [] then [] else InsertCase(cases[|cases| - 1], SortById(cases[..|cases| - 1]))
  }

  function CountDecision(cases: seq<PublicCase>, d: string): nat {
    if cases == [] then 0
    else CountDecision(cases[..|cases| - 1], d) + if cases[|cases| - 1].decision == d then 1 else 0
  }

  datatype PublicAttempt = PublicAttempt(
    index: Json, started: Json, ended: Json, k: Json, n: Json, point: Json, interval: Json,
    approve: nat, escalate: nat, requestMoreInfo: nat, cases: seq<PublicCase>)

  // _public_attempt, of an attempt that passed its checks
  function PublicAttemptOf(a: Json): PublicAttempt
    requires AttemptOk(a)
  {
    var cases := PublicCases(a.fields[Cases].items);
    PublicAttempt(a.fields[Index], a.fields[StartedUtc], a.fields[EndedUtc], a.fields[HitsK], a.fields[SizeN],
      a.fields[PointEstimate], a.fields[WilsonCi95], CountDecision(cases, "approve"), CountDecision(cases, "escalate"),
      CountDecision(cases, "request_more_info"), SortById(cases))
  }

  predicate AttemptsOk(attempts: seq<Json>) {
    forall i :: 0 <= i < |attempts| ==> AttemptOk(attempts[i])
  }

  function PublicAttempts(attempts: seq<Json>): seq<PublicAttempt>
    requires AttemptsOk(attempts)
  {
    seq(|attempts|, i requires 0 <= i < |attempts| => PublicAttemptOf(attempts[i]))
  }

  // ----- repeat structure -----

  datatype Tabulation = Tabulation(hits: map<string, nat>, severities: map<string, set<seq<string>>>)

  function AddCase(t: Tabulation, c: PublicCase): Tabulation {
    Tabulation(
      t.hits[c.id := (if c.id in t.hits then t.hits[c.id] else 0) + if c.intervened then 1 else 0],
      t.severities[c.id := (if c.id in t.severities then t.severities[c.id] else {}) + {c.severityCodes}])
  }

  function AddCases(t: Tabulation, cases: seq<PublicCase>): Tabulation {
    if cases == [] then t else AddCase(AddCases(t, cases[..|cases| - 1]), cases[|cases| - 1])
  }

  // The tabulation the two nested loops of _repeat_structure fill.
  function Tabulate(attempts: seq<PublicAttempt>): Tabulation {
    if attempts == [] then Tabulation(map[], map[])
    else AddCases(Tabulate(attempts[..|attempts| - 1]), attempts[|attempts| - 1].cases)
  }

  datatype RepeatStructure = RepeatStructure(
    attempts: nat, always: set<string>, sometimes: set<string>, never: set<string>, varied: set<string>)

  function Group(t: Tabulation, n: nat): RepeatStructure {
    var always := set c | c in t.hits && t.hits[c] == n;
    RepeatStructure(n, always,
      set c | c in t.hits && 0 < t.hits[c] < n,
      set c | c in t.hits && t.hits[c] == 0,
      set c | c in always && c in t.severities && |t.severities[c]| > 1)
  }

  // The groups must not overlap and must cover the corpus.
  predicate Partitions(r: RepeatStructure) {
    && r.always !! r.sometimes && r.always !! r.never && r.sometimes !! r.never
    && |r.always| + |r.sometimes| + |r.never| == EXPECTED_CASE_COUNT && r.varied <= r.always
  }

  // _repeat_structure
  method BuildRepeatStructure(attempts: seq<PublicAttempt>) returns (r: Option<RepeatStructure>)
    ensures var g := Group(Tabulate(attempts), |attempts|); r == if Partitions(g) then Some(g) else None
  {
    var hits: map<string, nat> := map[];
    var severities: map<string, set<seq<string>>> := map[];
    for i := 0 to |attempts|
      invariant Tabulation(hits, severities) == Tabulate(attempts[..i])
    {
      var cases := attempts[i].cases;
      ghost var before := Tabulation(hits, severities);
      for j := 0 to |cases|
        invariant Tabulation(hits, severities) == AddCases(before, cases[..j])
      {
        var c := cases[j];
        assert cases[..j + 1][..j] == cases[..j];
        severities := severities[c.id := (if c.id in severities then severities[c.id] else {}) + {c.severityCodes}];
        if c.intervened {
          hits := hits[c.id := (if c.id in hits then hits[c.id] else 0) + 1];
        } else if c.id !in hits {
          hits := hits[c.id := 0];
        }
      }
      assert cases[..|cases|] == cases;
      assert attempts[..i + 1][..i] == attempts[..i];
    }
    assert attempts[..|attempts|] == attempts;
    var g := Group(Tabulation(hits, severities), |attempts|);
    return if Partitions(g) then Some(g) else None;
  }

  // ----- the document -----

  // The digests of a session's two files.
  datatype Digests = Digests(json: string, md: string)

  // The digests of the files at hand, and the pinned ones by run id.
  datatype Pinning = Pinning(digests: Digests, pins: map<string, Digests>) {
    predicate Admits(runId: string) {
      runId in pins && pins[runId] == digests
    }
  }

  predicate RunOk(doc: Json, expectedRunId: Option<string>, pinned: Pinning) {
    var run := Member(doc, RunBlock);
    && HasExactly(run, RUN_FIELDS) && HasExactly(run.fields[Git], GIT_FIELDS)
    && run.fields[Git].fields[CommitSha].Text? && run.fields[Git].fields[CommitSha].text != ""
    && run.fields[Git].fields[Dirty].Boolean? && run.fields[RunType] == Text(SOURCE_RUN_TYPE)
    && run.fields[RunId].Text? && pinned.Admits(run.fields[RunId].text)
    && (expectedRunId.Some? ==> run.fields[RunId].text == expectedRunId.value)
  }

  function CaseIdSet(a: PublicAttempt): set<string> {
    set i | 0 <= i < |a.cases| :: a.cases[i].id
  }

  predicate SharedCorpus(attempts: seq<PublicAttempt>) {
    && attempts != []
    && (forall i :: 0 <= i < |attempts| ==> CaseIdSet(attempts[i]) == CaseIdSet(attempts[0]))
    && |CaseIdSet(attempts[0])| == EXPECTED_CASE_COUNT
  }

  predicate SessionOk(doc: Json) {
    && HasExactly(Member(doc, SessionBlock), SESSION_FIELDS)
    && Member(doc, SessionBlock).fields[TerminalState] == Text(COMPLETED)
    && Member(doc, Attempts).List? && Member(doc, Attempts).items != [] && AttemptsOk(Member(doc, Attempts).items)
    && NumberIs(Member(doc, SessionBlock).fields[ValidAttempts], |Member(doc, Attempts).items|)
    && SharedCorpus(PublicAttempts(Member(doc, Attempts).items))
  }

  predicate PreflightOk(doc: Json) {
    && HasExactly(Member(doc, PreflightBlock), PREFLIGHT_FIELDS)
    && Member(doc, PreflightBlock).fields[FrozenContractVerified] == Boolean(true)
    && NumberIs(Member(doc, PreflightBlock).fields[CasesVerified], EXPECTED_CASE_COUNT)
  }

  function CaseCalls(cases: seq<PublicCase>): int {
    if cases == [] then 0 else CaseCalls(cases[..|cases| - 1]) + cases[|cases| - 1].providerCalls
  }

  function AttemptCalls(attempts: seq<PublicAttempt>): int {
    if attempts == [] then 0 else AttemptCalls(attempts[..|attempts| - 1]) + CaseCalls(attempts[|attempts| - 1].cases)
  }

  function CaseRetries(cases: seq<Json>, stage: Key): int
    requires CasesOk(cases) && stage in STAGE_FIELDS
  {
    if cases == [] then 0
    else CaseRetries(cases[..|cases| - 1], stage) + cases[|cases| - 1].fields[RetriesByStage].fields[stage].int_
  }

  function AttemptRetries(attempts: seq<Json>, stage: Key): int
    requires AttemptsOk(attempts) && stage in STAGE_FIELDS
  {
    if attempts == [] then 0
    else
      AttemptRetries(attempts[..|attempts| - 1], stage)
      + CaseRetries(attempts[|attempts| - 1].fields[Cases].items, stage)
  }

  predicate CostOk(doc: Json)
    requires SessionOk(doc)
  {
    var cost, source := Member(doc, CostBlock), Member(doc, Attempts).items;
    && HasExactly(cost, COST_FIELDS) && StageCounts(cost.fields[CallsByStage])
    && StageCounts(cost.fields[RetriesByStage])
    && NumberIs(cost.fields[ActualCalls], AttemptCalls(PublicAttempts(source)))
    && NumberIs(cost.fields[ActualCalls],
        cost.fields[CallsByStage].fields[AiTriageStage].int_ + cost.fields[CallsByStage].fields[SynthesizeStage].int_)
    && AttemptRetries(source, AiTriageStage) == cost.fields[RetriesByStage].fields[AiTriageStage].int_
    && AttemptRetries(source, SynthesizeStage) == cost.fields[RetriesByStage].fields[SynthesizeStage].int_
  }

  function Decimal(n: nat): string {
    if n < 10 then [Digit(n)] else Decimal(n / 10) + [Digit(n % 10)]
  }

  // How a recorded k is rendered in a rate.
  function Rendered(k: Json): string {
    match k
    case Integer(i) => if i >= 0 then Decimal(i) else "-" + Decimal(-i)
    case Boolean(b) => if b then "True" else "False"
    case Float(x) => Decimal(if x >= 0.0 then x.Floor else 0) + ".0"
    case _ => ""
  }

  function RateText(k: Json): string {
    Rendered(k) + "/30"
  }

  // What the attempts' k count; a recorded k equals it as a number.
  function Hits(attempts: seq<Json>): seq<nat>
    requires AttemptsOk(attempts)
  {
    seq(|attempts|, i requires 0 <= i < |attempts| => CountIntervened(PublicCases(attempts[i].fields[Cases].items)))
  }

  // For an even number of attempts either middle value is accepted.
  predicate IsMedian(j: Json, ks: seq<nat>)
    requires ks != []
  {
    var sorted := Statistics.Sorted(ks);
    NumberIs(j, sorted[|ks| / 2]) || (|ks| % 2 == 0 && NumberIs(j, sorted[|ks| / 2 - 1]))
  }

  predicate DistributionOk(doc: Json)
    requires SessionOk(doc)
  {
    var dist, source := Member(doc, DistributionBlock), Member(doc, Attempts).items;
    var ks := Hits(source);
    && HasExactly(dist, DISTRIBUTION_FIELDS)
    && dist.fields[OrderedK].List? && |dist.fields[OrderedK].items| == |ks|
    && (forall i :: 0 <= i < |ks| ==> NumberIs(dist.fields[OrderedK].items[i], ks[i]))
    && NumberIs(dist.fields[SizeN], EXPECTED_CASE_COUNT)
    && dist.fields[OrderedRates].List? && |dist.fields[OrderedRates].items| == |ks|
    && (forall i :: 0 <= i < |ks| ==> dist.fields[OrderedRates].items[i] == Text(RateText(source[i].fields[HitsK])))
    && NumberIs(dist.fields[MinK], Statistics.Min(ks)) && NumberIs(dist.fields[MaxK], Statistics.Max(ks))
    && IsMedian(dist.fields[MedianK], ks)
  }

  predicate LimitsOk(doc: Json) {
    Member(doc, Limits).List? && forall i :: 0 <= i < |Member(doc, Limits).items| ==> Member(doc, Limits).items[i].Text?
  }

  // Everything that is checked before the summary is put together.
  predicate Publishable(doc: Json, expectedRunId: Option<string>, pinned: Pinning) {
    && Member(doc, Schema) == Text(SOURCE_SCHEMA) && Member(doc, SchemaVersion) == Text(SOURCE_SCHEMA_VERSION)
    && RunOk(doc, expectedRunId, pinned) && SessionOk(doc) && PreflightOk(doc) && CostOk(doc) && DistributionOk(doc)
    && LimitsOk(doc)
    && HasExactly(Member(doc, ProviderBlock), PROVIDER_FIELDS)
    && Partitions(Group(Tabulate(PublicAttempts(Member(doc, Attempts).items)), |Member(doc, Attempts).items|))
  }

  // ----- the summary -----

  function Texts(ts: seq<string>): Json {
    List(seq(|ts|, i requires 0 <= i < |ts| => Text(ts[i])))
  }

  function PublicCaseJson(c: PublicCase): Json {
    Object(map[CaseId := Text(c.id), ClassificationKey := Text(if c.intervened then INTERVENTION else NON_INTERVENTION),
      FinalDecision := Text(c.decision), TriageSeverityCodes := Texts(c.severityCodes),
      SystemFindingCount := Integer(c.systemFindings),
      ProviderCalls := Integer(c.providerCalls), ProposalDecision := Text(c.proposal),
      GuardrailOverrode := Boolean(c.overrode)])
  }

  function PublicCasesJson(cases: seq<PublicCase>): Json {
    List(seq(|cases|, i requires 0 <= i < |cases| => PublicCaseJson(cases[i])))
  }

  // Only decisions that occurred are listed.
  function DecisionCounts(a: PublicAttempt): Json {
    var approve := if a.approve > 0 then map[OtherKey("approve") := Integer(a.approve)] else map[];
    var escalate := if a.escalate > 0 then map[OtherKey("escalate") := Integer(a.escalate)] else map[];
    var more :=
      if a.requestMoreInfo > 0 then map[OtherKey("request_more_info") := Integer(a.requestMoreInfo)] else map[];
    Object(approve + escalate + more)
  }

  function PublicAttemptJson(a: PublicAttempt): Json {
    Object(map[Index := a.index, Validity := Text(VALID), StartedUtc := a.started, EndedUtc := a.ended, HitsK := a.k,
      SizeN := a.n,
      RecordedPointEstimate := a.point, RecordedWilsonCi95 := a.interval, FinalDecisionCounts := DecisionCounts(a),
      Cases := PublicCasesJson(a.cases)])
  }

  function PublicAttemptsJson(attempts: seq<PublicAttempt>): Json {
    List(seq(|attempts|, i requires 0 <= i < |attempts| => PublicAttemptJson(attempts[i])))
  }

  datatype Summary = Summary(
    runId: string, commit: string, dirty: bool, digests: Digests, preflight: Json, provider: Json, session: Json,
    cost: Json, attempts: seq<PublicAttempt>, repeats: RepeatStructure, distribution: Json, limits: Json)

  function SummaryOf(doc: Json, expectedRunId: Option<string>, pinned: Pinning): Summary
    requires Publishable(doc, expectedRunId, pinned)
  {
    var run := Member(doc, RunBlock);
    var attempts := PublicAttempts(Member(doc, Attempts).items);
    Summary(run.fields[RunId].text, run.fields[Git].fields[CommitSha].text, run.fields[Git].fields[Dirty].value,
      pinned.digests,
      Member(doc, PreflightBlock), Member(doc, ProviderBlock), Member(doc, SessionBlock), Member(doc, CostBlock),
      attempts, Group(Tabulate(attempts), |attempts|), Member(doc, DistributionBlock), Member(doc, Limits))
  }

  // The frozen ids of a group, in order.
  function InOrder(ids: set<string>, n: nat): seq<string>
    requires n < 100
  {
    if n == 0 then [] else InOrder(ids, n - 1) + if FrozenId(n) in ids then [FrozenId(n)] else []
  }

  function GroupJson(ids: set<string>): Json {
    Object(map[Count := Integer(|ids|), CaseIds := Texts(InOrder(ids, EXPECTED_CASE_COUNT))])
  }

  function RepeatsJson(r: RepeatStructure): Json {
    Object(map[AttemptCount := Integer(r.attempts), Always := GroupJson(r.always), Sometimes := GroupJson(r.sometimes),
      Never := GroupJson(r.never), SeverityVaried := GroupJson(r.varied),
      PartitionTotal := Integer(|r.always| + |r.sometimes| + |r.never|)])
  }

  const SOURCE_JSON_FILENAME := "redteam_live_session.json"
  const SOURCE_MD_FILENAME := "redteam_live_session.md"

  function DigestsJson(d: Digests): Json {
    Object(map[OtherKey(SOURCE_JSON_FILENAME) := Text("sha256:" + d.json),
      OtherKey(SOURCE_MD_FILENAME) := Text("sha256:" + d.md)])
  }

  function DerivationJson(s: Summary): Json {
    Object(map[SourceRunId := Text(s.runId), SourceCommitSha := Text(s.commit), SourceWorktreeDirty := Boolean(s.dirty),
      SourceArtifactDigests := DigestsJson(s.digests)])
  }

  // The published document.
  function Rendering(s: Summary): Json {
    Object(map[Schema := Text("redteam_live_public_summary"), Derivation := DerivationJson(s),
      PreflightBlock := s.preflight, ProviderBlock := s.provider, SessionBlock := s.session, CostBlock := s.cost,
      Attempts := PublicAttemptsJson(s.attempts),
      RepeatStructureBlock := RepeatsJson(s.repeats), DistributionBlock := s.distribution, Limits := s.limits])
  }

  // build_public_summary: None is a refusal.
  function BuildPublicSummary(doc: Json, expectedRunId: Option<string>, pinned: Pinning): Option<Summary> {
    if !Publishable(doc, expectedRunId, pinned) then None
    else
      var s := SummaryOf(doc, expectedRunId, pinned);
      if Walk(Rendering(s), FORBIDDEN_OUTPUT_KEYS) then Some(s) else None
  }
}
