/** JSON values as the session writer produces and the public summary reads them: objects are
    maps from keys, and numbers remember whether they were written as integers. */
module Json {
  import opened Contracts

  datatype Key =
    // the document
    | Schema | SchemaVersion | RunBlock | SessionBlock | PreflightBlock | ProviderBlock | CostBlock | Attempts
    | Limits | DistributionBlock
    // run
    | Git | HarnessVersion | PackageVersions | PythonExecutable | PythonVersion | RunId | RunType | TimestampUtc
    | CommitSha | Dirty
    // session
    | AttemptsMade | EndedUtc | InvalidAttempts | MaxAttempts | MaxReplacements | ReplacementsUsed | StartedUtc
    | TargetValidAttempts | TerminalState | ValidAttempts
    // preflight
    | CasesVerified | CorpusHash | FrozenContractVerified | PromotedRulesHash
    // provider
    | CoverageCatalogPrompt | LogicalCallUpperBound | MaxTokens | Model | ProviderAttemptTimeout | SdkMaxRetries
    | SeedNote
    | SynthesisPrompt | Temperature | TimeoutScopeNote | TriagePrompt | WrapperBackoffSchedule | WrapperJitterCap
    | WrapperMaxAttempts
    // cost
    | ActualCalls | CallsByStage | CeilingNote | MaxCallsPerCase | MaxCallsPerCleanAttempt | RetriesByStage
    | SessionCallCeiling
    | AiTriageStage | SynthesizeStage
    // distribution
    | MaxK | MedianK | MinK | SizeN | OrderedK | OrderedRates | PoolingNote
    // attempts
    | Cases | Index | HitsK | PointEstimate | Type | WilsonCi95
    | Cause | ContaminatedCaseIds | FailingStages | ErrorKinds | NotAttemptedCaseIds | BudgetNote
    | FailedCaseId | ExceptionClass | IntegrityNote | Evidence
    // cases
    | AppropriateAction | CaseId | ClassificationKey | FinalDecision | Findings | GuardrailOverrode
    | ProposalDecision | ProposalNote
    | ProviderCalls | SystemFindings | TriageConcerns
    // findings
    | OriginKey | CodeKey | SeverityKey | CheckName | ErrorKindKey | Detail | FieldsInvolved | ContentProvenance
    | ContentNote | StageKey
    | Reasoning
    // the public summary
    | Derivation | RepeatStructureBlock | Validity | RecordedPointEstimate | RecordedWilsonCi95 | FinalDecisionCounts
    | TriageSeverityCodes | SystemFindingCount | AttemptCount | Always | Sometimes | Never | SeverityVaried
    | PartitionTotal | Count | CaseIds
    | SourceRunId | SourceCommitSha | SourceWorktreeDirty | SourceArtifactDigests
    | OtherKey(name: string)

  datatype Json =
    | Null
    | Boolean(value: bool)
    | Integer(int_: int)
    | Float(real_: real)
    | Text(text: string)
    | List(items: seq<Json>)
    | Object(fields: map<Key, Json>)

  // A missing key and an explicit null read alike.
  function Member(j: Json, k: Key): Json {
    if j.Object? && k in j.fields then j.fields[k] else Null
  }

  // The number a value compares as; booleans compare as zero and one.
  function Number(j: Json): Option<real> {
    match j
    case Boolean(b) => Some(if b then 1.0 else 0.0)
    case Integer(i) => Some(i as real)
    case Float(x) => Some(x)
    case _ => None
  }

  predicate NumberIs(j: Json, n: int) {
    Number(j) == Some(n as real)
  }

  predicate IsNumber(j: Json) {
    j.Integer? || j.Float?
  }

  predicate IsCount(j: Json) {
    j.Integer? && j.int_ >= 0
  }

  // ----- keys at any depth -----

  function KeysIn(j: Json): set<Key> {
    match j
    case Object(fields) => fields.Keys + set k, x | k in fields && x in KeysIn(fields[k]) :: x
    case List(items) => set i, x | 0 <= i < |items| && x in KeysIn(items[i]) :: x
    case _ => {}
  }

  // The recursive walk: no key of the set is met on the way down.
  predicate Walk(j: Json, forbidden: set<Key>) {
    match j
    case Object(fields) => forall k :: k in fields ==> k !in forbidden && Walk(fields[k], forbidden)
    case List(items) => forall i :: 0 <= i < |items| ==> Walk(items[i], forbidden)
    case _ => true
  }

  lemma {:induction false} WalkFindsEveryKey(j: Json, forbidden: set<Key>)
    ensures Walk(j, forbidden) <==> KeysIn(j) !! forbidden
  {
    match j
    case Object(fields) =>
      forall k | k in fields ensures Walk(fields[k], forbidden) <==> KeysIn(fields[k]) !! forbidden {
        WalkFindsEveryKey(fields[k], forbidden);
      }
      if Walk(j, forbidden) {
        forall x | x in KeysIn(j) ensures x !in forbidden {
          if x !in fields.Keys {
            var k :| k in fields && x in KeysIn(fields[k]);
          }
        }
      } else {
        var k :| k in fields && !(k !in forbidden && Walk(fields[k], forbidden));
        assert k in KeysIn(j) && forall x :: x in KeysIn(fields[k]) ==> x in KeysIn(j);
      }
    case List(items) =>
      forall i | 0 <= i < |items| ensures Walk(items[i], forbidden) <==> KeysIn(items[i]) !! forbidden {
        WalkFindsEveryKey(items[i], forbidden);
      }
      if Walk(j, forbidden) {
        forall x | x in KeysIn(j) ensures x !in forbidden {
          var i :| 0 <= i < |items| && x in KeysIn(items[i]);
        }
      } else {
        var i :| 0 <= i < |items| && !Walk(items[i], forbidden);
        assert forall x :: x in KeysIn(items[i]) ==> x in KeysIn(j);
      }
    case _ =>
  }

  // ----- exact projection -----

  predicate HasExactly(block: Json, allowed: set<Key>) {
    block.Object? && block.fields.Keys == allowed
  }
}
