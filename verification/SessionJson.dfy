/** The JSON document a session is written as, key by key. Clocks, provenance, prompt hashes and
    prose are parameters. */
module SessionJson {
  import opened Contracts
  import opened Json
  import opened LiveAttempt
  import opened CallBudget
  import L = LiveSession
  import P = PublicSummary
  import Statistics
  import Wilson

  const Z95 := 1.959963984540054
  const WRITTEN_SCHEMA := "redteam_live_session"
  const WRITTEN_VERSION := "1.0.0"

  // What the writer takes from outside: the run block, the pinned provider settings and prompt
  // hashes, clock readings, hashes, prose, and the square root of the interval.
  datatype Meta = Meta(
    run: Json, provider: Key -> Json, started: nat -> string, ended: nat -> string, sessionStarted: string,
    sessionEnded: string,
    corpusHash: string, rulesHash: string, limits: seq<string>, prose: Key -> string, sqrt: real -> real)

  // ----- words -----

  function DecisionText(d: Decision): string {
    match d
    case Approve => "approve"
    case Escalate => "escalate"
    case RequestMoreInfo => "request_more_info"
  }

  function CodeText(c: Code): string {
    match c
    case A1 => "A1" case A2 => "A2" case B1a => "B1a" case B1b => "B1b" case B2a => "B2a" case B2b => "B2b"
    case C1a => "C1a" case C1b => "C1b" case C2 => "C2" case D1a => "D1a" case D1b => "D1b"
    case E1 => "E1" case E2 => "E2"
    case X1 => "X1" case X2 => "X2" case F1 => "F1" case T0 => "T0" case T1 => "T1"
  }

  function SeverityText(s: Severity): string {
    match s
    case Info => "info"
    case Explainable => "explainable"
    case Unexplainable => "unexplainable"
  }

  function OriginText(o: Origin): string {
    match o
    case Deterministic => "deterministic"
    case AiTriage => "ai_triage"
    case System => "system"
  }

  function KindText(k: ErrorKind): string {
    match k
    case Timeout => "timeout"
    case ProviderError => "provider_error"
    case SchemaInvalid => "schema_invalid"
    case UnexpectedException => "unexpected_exception"
    case RuleRuntimeError => "rule_runtime_error"
  }

  function NodeText(n: Node): string {
    match n
    case Extract => "extract"
    case ResolveEntities => "resolve_entities"
    case IdentityCheck => "check_identity_consistency"
    case OwnershipCheck => "check_ownership_consistency"
    case AuthorityCheck => "check_authority_chain"
    case UboCheck => "check_ubo_derivation"
    case CompletenessCheck => "check_completeness"
    case LearnedRulesCheck => "check_learned_rules"
    case TriageNode => "ai_triage"
    case SynthesisNode => "synthesize"
    case GuardrailNode => "guardrail"
    case ActNode => "act"
  }

  function ClassificationText(c: Classification): string {
    match c
    case Intervention => "intervention"
    case NonIntervention => "non_intervention"
    case ContaminatedCase => "contaminated"
    case CoverageViolated => "coverage_violation"
  }

  function TerminalText(t: L.Terminal): string {
    match t
    case Completed => "completed"
    case OperationalFailureExhausted => "operational_failure_exhausted"
    case CoverageViolationFound => "coverage_violation"
    case LiveCallBudgetExhausted => "live_call_budget_exhausted"
    case InputIntegrityFailure => "input_integrity_failure"
  }

  // ----- rows -----

  // Model-written text never appears in a finding row.
  function FindingRow(f: Finding): Json {
    Object(map[OriginKey := Text(OriginText(f.origin)), CodeKey := Text(CodeText(f.code)),
      SeverityKey := Text(SeverityText(f.severity)), CheckName := Text(NodeText(f.check))]
      + (if f.errorKind.Some? then map[ErrorKindKey := Text(KindText(f.errorKind.value))] else map[])
      + (if f.origin != AiTriage then map[Detail := Text(f.detail)] else map[]))
  }

  function ConcernRow(f: Finding, meta: Meta): Json {
    Object(map[CodeKey := Text(CodeText(f.code)), SeverityKey := Text(SeverityText(f.severity)),
      Detail := Text(f.detail),
      FieldsInvolved := P.Texts(f.fields), ContentProvenance := Text("model_generated_untrusted"),
      ContentNote := Text(meta.prose(ContentNote))])
  }

  function SystemRow(f: Finding): Json {
    Object(map[StageKey := Text(NodeText(f.check)), CodeKey := Text(CodeText(f.code)),
      ErrorKindKey := if f.errorKind.Some? then Text(KindText(f.errorKind.value)) else Null])
  }

  function OfOrigin(fs: seq<Finding>, o: Origin): seq<Finding> {
    if fs == [] then [] else OfOrigin(fs[..|fs| - 1], o) + if fs[|fs| - 1].origin == o then [fs[|fs| - 1]] else []
  }

  function FindingRows(fs: seq<Finding>): seq<Json> {
    seq(|fs|, i requires 0 <= i < |fs| => FindingRow(fs[i]))
  }

  function ConcernRows(fs: seq<Finding>, meta: Meta): seq<Json> {
    seq(|fs|, i requires 0 <= i < |fs| => ConcernRow(fs[i], meta))
  }

  function SystemRows(fs: seq<Finding>): seq<Json> {
    seq(|fs|, i requires 0 <= i < |fs| => SystemRow(fs[i]))
  }

  function Stages(triage: int, synthesis: int): Json {
    Object(map[AiTriageStage := Integer(triage), SynthesizeStage := Integer(synthesis)])
  }

  // _case_row
  function CaseRowJson(r: CaseRow, meta: Meta): Json {
    Object(map[
      CaseId := Text(r.id),
      AppropriateAction := if r.appropriateAction.Some? then Text(r.appropriateAction.value) else Null,
      FinalDecision := Text(DecisionText(r.decision)),
      ClassificationKey := Text(ClassificationText(r.classification)),
      Findings := List(FindingRows(r.findings)),
      TriageConcerns := List(ConcernRows(OfOrigin(r.findings, AiTriage), meta)),
      SystemFindings := List(SystemRows(OfOrigin(r.findings, System))),
      ProviderCalls := Integer(r.providerCalls),
      RetriesByStage := Stages(r.triageRetries, r.synthesisRetries),
      GuardrailOverrode := Boolean(r.overrode),
      ProposalDecision := if r.proposed.Some? then Text(DecisionText(r.proposed.value)) else Null,
      ProposalNote := Text(meta.prose(ProposalNote))])
  }

  function RowsJson(rows: seq<CaseRow>, meta: Meta): seq<Json> {
    seq(|rows|, i requires 0 <= i < |rows| => CaseRowJson(rows[i], meta))
  }

  // ----- attempts -----

  // RateStat.to_dict: no estimate and no interval over nothing.
  function EstimateJson(k: int, n: nat): Json {
    if n == 0 then Null else Float(k as real / n as real)
  }

  function IntervalJson(k: int, n: nat, sqrt: real -> real): Json {
    match Wilson.Ci(k, n, Z95, sqrt)
    case Bounds(low, high) => List([Float(low), Float(high)])
    case _ => Null
  }

  const ALPHABETICAL_NODES: seq<Node> :=
    [ActNode, TriageNode, AuthorityCheck, CompletenessCheck, IdentityCheck, LearnedRulesCheck,
     OwnershipCheck, UboCheck, Extract, GuardrailNode, ResolveEntities, SynthesisNode]
  const ALPHABETICAL_KINDS: seq<ErrorKind> :=
    [ProviderError, RuleRuntimeError, SchemaInvalid, Timeout, UnexpectedException]

  function StageNames(stages: set<Node>, n: nat): seq<string>
    requires n <= |ALPHABETICAL_NODES|
  {
    if n == 0 then []
    else
      StageNames(stages, n - 1)
      + if ALPHABETICAL_NODES[n - 1] in stages then [NodeText(ALPHABETICAL_NODES[n - 1])] else []
  }

  function KindNames(kinds: set<ErrorKind>, n: nat): seq<string>
    requires n <= |ALPHABETICAL_KINDS|
  {
    if n == 0 then []
    else
      KindNames(kinds, n - 1)
      + if ALPHABETICAL_KINDS[n - 1] in kinds then [KindText(ALPHABETICAL_KINDS[n - 1])] else []
  }

  function ReasonText(r: ViolationReason): string {
    match r
    case LearnedRulePresent => "learned_rule_finding_present"
    case DeterministicPresent => "deterministic_finding_present"
    case UnclassifiedOrigin => "unclassified_origin"
  }

  // The violating case, under the configuration it was run with.
  function EvidenceJson(r: CaseRow, reason: ViolationReason, meta: Meta): Json {
    Object(map[
      CaseId := Text(r.id), FinalDecision := Text(DecisionText(r.decision)), Findings := List(FindingRows(r.findings)),
      CorpusHash := Text(meta.corpusHash), PromotedRulesHash := Text(meta.rulesHash),
      OtherKey("reason_code") := Text(ReasonText(reason)), OtherKey("meaning") := Text(meta.prose(Evidence))])
  }

  function AttemptJson(a: Attempt, meta: Meta): Json {
    var started, ended := Text(meta.started(a.index)), Text(meta.ended(a.index));
    var cases := List(RowsJson(a.cases, meta));
    match a
    case Valid(index, _, k, n) => Object(map[
      Index := Integer(index), Type := Text("valid"), StartedUtc := started, EndedUtc := ended, Cases := cases,
      HitsK := Integer(k), SizeN := Integer(n), PointEstimate := EstimateJson(k, n),
      WilsonCi95 := IntervalJson(k, n, meta.sqrt)])
    case Contaminated(index, _, id, stages, kinds, rest) => Object(map[
      Index := Integer(index), Type := Text("operationally_invalid"), Cause := Text("system_contamination"),
      StartedUtc := started, EndedUtc := ended, Cases := cases, ContaminatedCaseIds := P.Texts([id]),
      FailingStages := P.Texts(StageNames(stages, |ALPHABETICAL_NODES|)),
      ErrorKinds := P.Texts(KindNames(kinds, |ALPHABETICAL_KINDS|)), NotAttemptedCaseIds := P.Texts(rest)])
    case BudgetExhausted(index, _, rest) => Object(map[
      Index := Integer(index), Type := Text("operationally_invalid"), Cause := Text("budget_exhausted"),
      StartedUtc := started, EndedUtc := ended, Cases := cases, ContaminatedCaseIds := P.Texts([]),
      FailingStages := P.Texts([]), ErrorKinds := P.Texts([]), NotAttemptedCaseIds := P.Texts(rest),
      BudgetNote := Text(meta.prose(BudgetNote))])
    case CoverageViolation(index, rows, reason, rest) => Object(map[
      Index := Integer(index), Type := Text("coverage_violation"), StartedUtc := started, EndedUtc := ended,
      Cases := cases, NotAttemptedCaseIds := P.Texts(rest),
      Evidence := if rows == [] then Null else EvidenceJson(rows[|rows| - 1], reason, meta)])
    case IntegrityFailure(index, _, failed, rest) => Object(map[
      Index := Integer(index), Type := Text("input_integrity_failure"), StartedUtc := started, EndedUtc := ended,
      Cases := cases, FailedCaseId := Text(failed), ExceptionClass := Text(meta.prose(ExceptionClass)),
      NotAttemptedCaseIds := P.Texts(rest), IntegrityNote := Text(meta.prose(IntegrityNote))])
  }

  function AttemptsJson(attempts: seq<Attempt>, meta: Meta): seq<Json> {
    seq(|attempts|, i requires 0 <= i < |attempts| => AttemptJson(attempts[i], meta))
  }

  // ----- the document -----

  function SessionBlockJson(s: L.Session, meta: Meta): Json {
    Object(map[
      StartedUtc := Text(meta.sessionStarted), EndedUtc := Text(meta.sessionEnded),
      TerminalState := Text(TerminalText(s.terminal)),
      ValidAttempts := Integer(s.validAttempts), InvalidAttempts := Integer(s.invalidAttempts),
      ReplacementsUsed := Integer(s.replacementsUsed), AttemptsMade := Integer(s.attemptsMade),
      TargetValidAttempts := Integer(s.policy.target), MaxReplacements := Integer(s.policy.replacements),
      MaxAttempts := Integer(s.policy.maxAttempts)])
  }

  function PreflightJson(s: L.Session, meta: Meta): Json {
    Object(map[FrozenContractVerified := Boolean(true), CorpusHash := Text(meta.corpusHash),
      PromotedRulesHash := Text(meta.rulesHash), CasesVerified := Integer(s.casesVerified)])
  }

  const PROVIDER_KEYS: set<Key> :=
    {Model, Temperature, MaxTokens, ProviderAttemptTimeout, SdkMaxRetries, WrapperMaxAttempts,
     WrapperBackoffSchedule, WrapperJitterCap, LogicalCallUpperBound, TimeoutScopeNote, SeedNote}
  const PROMPT_HASH_KEYS: set<Key> := {TriagePrompt, SynthesisPrompt, CoverageCatalogPrompt}

  function ProviderJson(meta: Meta): Json {
    Object(map k | k in PROVIDER_KEYS + PROMPT_HASH_KEYS :: meta.provider(k))
  }

  function CostJson(s: L.Session, meta: Meta): Json {
    Object(map[
      ActualCalls := Integer(s.cost.total), CallsByStage := Stages(s.cost.byStage.triage, s.cost.byStage.synthesis),
      RetriesByStage := Stages(s.cost.retries.triage, s.cost.retries.synthesis),
      MaxCallsPerCase := Integer(MAX_CALLS_PER_CASE),
      MaxCallsPerCleanAttempt := Integer(s.casesVerified * MAX_CALLS_PER_CASE),
      SessionCallCeiling := Integer(L.SESSION_CALL_CEILING),
      CeilingNote := Text(meta.prose(CeilingNote))])
  }

  function RateJson(k: nat, n: nat): Json {
    Text(P.Decimal(k) + "/" + P.Decimal(n))
  }

  // An odd number of counts has an integer median.
  function MedianJson(ks: seq<nat>): Json
    requires ks != []
  {
    if |ks| % 2 == 1 then Integer(Statistics.Sorted(ks)[|ks| / 2]) else Float(Statistics.Median(ks))
  }

  function DistributionJson(d: L.Distribution, meta: Meta): Json
    requires d.orderedK != []
  {
    Object(map[
      OrderedRates := List(seq(|d.orderedK|, i requires 0 <= i < |d.orderedK| => RateJson(d.orderedK[i], d.n))),
      OrderedK := List(seq(|d.orderedK|, i requires 0 <= i < |d.orderedK| => Integer(d.orderedK[i]))),
      SizeN := Integer(d.n), MinK := Integer(d.minK), MaxK := Integer(d.maxK), MedianK := MedianJson(d.orderedK),
      PoolingNote := Text(meta.prose(PoolingNote))])
  }

  function SessionJson(s: L.Session, meta: Meta): Json {
    Object(map[
      Schema := Text(WRITTEN_SCHEMA), SchemaVersion := Text(WRITTEN_VERSION), RunBlock := meta.run,
      SessionBlock := SessionBlockJson(s, meta), PreflightBlock := PreflightJson(s, meta),
      ProviderBlock := ProviderJson(meta),
      CostBlock := CostJson(s, meta), Attempts := List(AttemptsJson(s.attempts, meta)), Limits := P.Texts(meta.limits)]
      + (if s.distribution.Some? && s.distribution.value.orderedK != [] then
           map[DistributionBlock := DistributionJson(s.distribution.value, meta)]
         else map[]))
  }
}
