# A model of the red-team screening harness

This project models the deterministic core of a due-diligence screening harness and proves
properties that span its parts. A dossier of three company documents goes through five checks, a
list of learned rules, two model calls and a guardrail. Around that graph sit a generator of
labelled dossiers, a live session that measures how often the model intervenes on a frozen corpus
within a call budget, a validator that publishes a reduced summary of such a session, and two
crash-safe publication protocols.

The modules follow the program.

* `Contracts`, `Checks`, `Ownership`, `CheckMeanings`, `MatchingOrder`, `Rules`, `RulePromotion`, `Guardrail`,
  `Graph`, `FailClosed`, `Trajectory`, `Metrics`: the screening graph and what holds of every run of it.
* `SuffixRewriting`, `LegalSuffixes`, `Turkish`, `SpellingVariants`, `MatchingKeys`, `KeyWords`: name
  normalization, as a token-bounded rewriting system that is confluent and idempotent, its fixed points
  and its words.
* `Calendar`, `Generator`, `Blueprints`, `Isolation`, `SpellingIsolation`, `NamePools`, `GeneratedCases`,
  `InjectionEffects`, `GeneratedRuns`: the generator against the checks. The results are `GeneratedCases.EveryDrawIsLabelled`
  and, step by step on a mutable blueprint, `GeneratedRuns.GenerateForCode`.
* `CallBudget`, `LiveAttempt`, `AttemptAccounting`, `RowReports`, `LiveSession`, `SessionAccounting`,
  `Statistics`: the live session, for every behaviour of the provider.
* `Json`, `PublicSummary`, `SummaryTheorems`, `RepeatGroups`, `SummaryMeaning`, `SummaryChecks`,
  `PublicationConditions`, `Noninterference`: the public summary, for every document. The results are
  `PublicationConditions.AcceptedIff` and `SummaryMeaning.SummarySaysWhatHappened`.
* `SessionJson`, `SessionDocument`, `SummaryAcceptance`, `SessionPublication`, `ProducerConsumer`: the session
  as its producer. The result is `ProducerConsumer.CompletedIsPublishedIff`.
* `Witnesses`: concrete providers, sessions and registries for the results above.
* `RecordPublication`, `HoldoutFreeze`: publication under any interleaving, and the freeze over any
  sequence of killed and repeated runs.
* `Wilson`, `ScientificReport`: the score interval over the reals and the paired reports.

Code that changes state step by step is modelled by classes and by methods with loops. Each is
proved equal to a function of the inputs or the old state, and the results are lemmas about that
function. The conventions are these.

* The provider is a script: for each schema, a function from request numbers to outcomes. An outcome
  is a value, a known model error of some kind, or any other exception. A theorem about all scripts is a
  theorem about all providers. Exceptions that escape elsewhere in a case are a parameter of the case.
* Random choices are arguments; a redraw loop reads a finite tape of draws. Fuzzy scores are arbitrary
  functions; only the key-equality path of the name predicates is concrete.
* Percentages are reals with the tolerance 0.01, dates are day numbers of the Gregorian calendar. JSON
  objects are maps, and numbers remember whether they were written as integers.
* A refusal by exception is `None` or an error value.
* A registry of rule templates is arbitrary code. Theorems that speak of severities assume
  `FailClosed.Vetted`: a template fires deterministic findings only, as the shipped one does. The
  finding contract alone admits an informational system finding (`Witnesses.UnvettedTemplateHides`).

Eight expectations a reader may have are false of the code. Each has a concrete case, and the exact
condition under which the code meets it.

* A generated case carries its label only if the drawn names do not collide under the matcher. The
  generator compares spellings, or nothing at all for the threshold boundary. The condition is
  `GeneratedCases.CollisionFree`; `GeneratedCases.UncheckedNameCanCollide` draws a collision from every base.
* Greedy matching depends on the order of the lists (`Ownership.FuzzyMatchingDependsOnOrder`), unless
  names match one to one (`MatchingOrder.OrderFreeIffOneToOne`).
* Within the sum tolerance, one holder's rounding is reported as an explainable transfer
  (`Ownership.RoundingCanLookLikeATransfer`, `Ownership.RedistributionIsATransferIff`).
* The store ties a gate report to a rule by ids only, although its documentation asks for a report on
  the same rule (`RulePromotion.StoreTrustsIdsOnly`). A stored rule passes the gate if its report was made for
  its parameters (`RulePromotion.ReportedStorePasses`), and for the shipped template exactly if
  `RulePromotion.CeilingPassesIff` says so.
* The validity predicate of a record directory looks at membership and type, not at contents. It
  implies complete contents except for a directory torn at one point of the second write
  (`RecordPublication.ValidIffFinishedOrTorn`, `RecordPublication.ValidDirectoryMayBePartial`).
* A matching key is not always its own key: a dot inside a suffix becomes a space only after the suffixes
  were rewritten (`MatchingKeys.KeyMayChangeAgain`, `MatchingKeys.FixedIffShapedAndFree`).
* The number of replacements used can exceed the number allowed, by one, in an exhausted session
  (`Witnesses.ShippedSessionMayOvershoot`, `Witnesses.WithinReplacementsIff`).
* With an even target, a session completed without replacements can be refused by the summary, because
  the mean of two middle counts is not one of them (`Witnesses.EvenTargetMayBeRefused`,
  `ProducerConsumer.CompletedIsPublishedIff`).

## Model

| member | source | states |
|---|---|---|
| CallBudget.CallShape | src/harness/eval/redteam_live.py:279-292 | One logical call, for any sequence of replies: between one and three requests; it answers the last reply; every earlier reply was retryable; a retryable answer means that no attempt was left. |
| CallBudget.CallRetries | src/harness/eval/redteam_live.py:279-292 | A second request is made exactly after a timeout or a provider error, a third exactly after two of them. |
| CallBudget.CallCounter.RecordCall | src/harness/eval/redteam_live.py:222-224 | A recorded request moves the total and its own stage by one and nothing else. |
| CallBudget.CallCounter.RecordRetry | src/harness/eval/redteam_live.py:226-227 | A recorded retry moves only its own stage of the retry tally. |
| CallBudget.RetryingLLMClient.CompleteStructured | src/harness/eval/redteam_live.py:267-292 | The retry loop answers what the call function answers and charges the counter for exactly the requests the provider served; a prompt of neither stage is refused before any request and leaves the counter alone. |
| LiveAttempt.RunAgent | src/harness/eval/redteam_live.py:541-572 | Screening one case through the client: counter, provider position and result are those of the two calls made in order, and an escaping exception leaves the counter where it stood. |
| LiveAttempt.RunOneAttempt | src/harness/eval/redteam_live.py:541-650 | The attempt loop, with every early exit, yields the attempt and the counter value of its specification function. |
| AttemptAccounting.CaseUsage | src/harness/agent/graph.py:191-257 | One case: at most six requests, the counter stays consistent, each call site is answered exactly once if the case finished, and synthesis is reached only after triage. |
| AttemptAccounting.AttemptConserves | src/harness/eval/redteam_live.py:541-650 | In every attempt type the row ids, the started-but-failed case if any, and the unattempted ids concatenate to exactly the frozen ids, in order. |
| AttemptAccounting.OnlyTheLastRowIsUnclean | src/harness/eval/redteam_live.py:576-640 | Only the last row of an attempt can be contaminated or a coverage violation, and the attempt type says which. |
| AttemptAccounting.RowIsFaithful | src/harness/eval/redteam_live.py:358-396 | A recorded row reports a real screening: its findings are sound, decision and classification are those of its findings, a clean row has an available proposal, the override flag says whether decision and proposal differ, and its counts are not negative. |
| RowReports.RowReportsItsCase | src/harness/eval/redteam_live.py:358-396 | Whenever a case finishes, its row holds the check findings, the concerns and the T0s of the two answers the provider gave, the decision on them, the proposal exactly when the synthesis call returned an available one, whether the two differ, and one request per call plus the retries. |
| RowReports.SessionRowsReportTheirCases | src/harness/eval/redteam_live.py:541-640 | In every attempt of every session: each row reports so about its own case, from the counter value at which that case began; a contaminated attempt names exactly the stages and kinds of the system findings of its last row, and a coverage violation its reason. |
| AttemptAccounting.CleanRowDecision | src/harness/eval/redteam_live.py:334-344 | In a clean row every finding is a triage finding, and it is an intervention exactly when the final decision is not approve, by the severity clamp and the guardrail. |
| AttemptAccounting.ContaminatedRowEscalates | src/harness/eval/redteam_live.py:334-344 | A contaminated case is always escalated. |
| AttemptAccounting.ContaminationIsExplained | src/harness/eval/redteam_live.py:607-640 | A contaminated row names at least one failed stage and at least one kind of error. |
| AttemptAccounting.ViolationIsAttributed | src/harness/eval/redteam_live.py:347-355 | Whatever the findings: the reason is a learned rule exactly when one fired, a deterministic check when only others did, and the third reason exactly when there is no violation. |
| AttemptAccounting.ValidAttemptCounts | src/harness/eval/redteam_live.py:641-650 | A valid attempt covers every frozen case; n is their number and k the number of rows whose final decision is not approve. |
| AttemptAccounting.AttemptUsage | src/harness/eval/redteam_live.py:541-650 | Through any attempt the ceiling holds, the rows account for every request unless an exception escaped, and an attempt that ran out of budget could not have afforded one more case. |
| LiveSession.RunSession | src/harness/eval/redteam_live.py:678-776 | The session loop returns the record of the session function, and its cost is the final counter. |
| SessionAccounting.SessionOutcome | src/harness/eval/redteam_live.py:687-711 | For every target t >= 1 and r replacements with t+r slots: completed iff t attempts are valid, exhausted iff r+1 are contaminated, otherwise the last attempt alone fixes the terminal state; the slots never run out by themselves. |
| SessionAccounting.SessionCost | src/harness/eval/redteam_live.py:204-234 | With a fresh counter, whatever the provider does: the total stays within the ceiling, equals the sum over stages and the requests served, and unless an exception escaped equals what the rows record, one answered call per stage and row. |
| SessionAccounting.CeilingAllAlong | src/harness/eval/redteam_live.py:204-234 | The total never decreases, so the ceiling holds whenever an attempt or a case of the session begins, not only at the end. |
| SessionAccounting.CeilingAfterEveryRequest | src/harness/eval/redteam_live.py:553-567 | Hence the ceiling holds after every single request: in the middle of a call and between the two calls of a case as well. |
| Witnesses.FailedSessionOvershoots | src/harness/eval/redteam_live.py:687-711 | For every policy with t+r slots and a ceiling of at least 2r+6: a provider that never answers by the schema, over clean dossiers, exhausts the session with one replacement more than the number allowed. |
| Witnesses.ShippedSessionMayOvershoot | src/harness/eval/redteam_live.py:687-711 | So the shipped session may record three replacements of two. |
| Witnesses.WithinReplacementsIff | src/harness/eval/redteam_live.py:687-711 | The recorded replacements stay within the number allowed iff the session is not exhausted. |
| Witnesses.QuietSessionCompletes | src/harness/eval/redteam_live.py:678-776 | For every policy with a ceiling of two requests per case and attempt and four spare ones: a provider that answers without concern, over clean dossiers, completes the session without a replacement. |
| SessionAccounting.BudgetExhaustionIsNotClean | src/harness/eval/redteam_live.py:92-101 | If t times n times 6 fits the ceiling, running out of budget implies an earlier contaminated attempt. |
| SessionAccounting.ShippedBudgetCoversTheTarget | src/harness/eval/redteam_live.py:92-101 | The shipped constants over thirty cases satisfy that premise. |
| SessionAccounting.SessionAttemptsAreSound | src/harness/eval/redteam_live.py:678-776 | Every attempt of every session conserves its ids, is unclean at most in its last row, has faithful rows, and if valid has the stated n and k. |
| SessionAccounting.DistributionIffCompleted | src/harness/eval/redteam_live.py:774-775 | The record has a distribution exactly when the session completed, over exactly the target number of attempts. |
| SessionAccounting.RecordCountsAddUp | src/harness/eval/redteam_live.py:713-776 | Attempts made are the valid ones, the operationally invalid ones, and the one that ended the session otherwise; invalid ones are the replacements plus a budget-exhausted last one. |
| SessionDocument.AttemptIsWrittenAs | src/harness/eval/redteam_live.py:541-650 | Type and cause of a written attempt say exactly which kind it is, and only a valid one has a numerator, a denominator, an estimate and an interval. |
| SessionDocument.AttemptWritesAll | src/harness/eval/redteam_live.py:541-650 | The ids of the written cases, of the failed one, if any, and of those not attempted are the frozen ids, in order. |
| SessionDocument.CauseIsNamed | src/harness/eval/redteam_live.py:624-640 | A contaminated attempt writes exactly its failing stages and its error kinds, in alphabetical order. |
| SessionDocument.EvidenceIsWritten | src/harness/eval/redteam_live.py:600-622 | A coverage violation is written with the case that violated it, its decision, its findings and the reason. |
| SessionDocument.FindingIsWritten | src/harness/eval/redteam_live.py:305-320 | A finding row carries origin, code, severity, stage and kind of error, and a detail exactly if no model wrote it. |
| SessionDocument.DocumentAgrees | src/harness/eval/redteam_live.py:713-776 | Every session writes a session block that agrees with the attempts beside it: how many there are, how many are valid, invalid and contaminated, and a terminal state exactly that of the last attempt; a distribution exactly if it completed. |
| SessionAccounting.CompletedWithoutReplacement | src/harness/eval/redteam_live.py:687-711 | A session completed without replacements consists of exactly the target number of valid attempts. |
| Statistics.SortedSorts | src/harness/eval/redteam_live.py:660-675 | The list the median is read from is an ascending permutation of the counts. |
| Statistics.MinIsLeast | src/harness/eval/redteam_live.py:660-675 | The recorded minimum is one of the counts and below all of them. |
| Statistics.MaxIsGreatest | src/harness/eval/redteam_live.py:660-675 | The recorded maximum is one of the counts and above all of them. |
| Json.WalkFindsEveryKey | src/harness/eval/redteam_public_summary.py:232-243 | The recursive assertion succeeds exactly when no forbidden key occurs at any depth. |
| PublicSummary.BuildRepeatStructure | src/harness/eval/redteam_public_summary.py:392-441 | The nested loops compute the tabulation and its three groups, refused exactly when the groups do not partition. |
| SummaryTheorems.DecisionCountsAddUp | src/harness/eval/redteam_public_summary.py:330-389 | The published decision counts of an accepted attempt total its n, and its recorded k counts the interventions among the sorted cases published with it. |
| SummaryMeaning.DecisionsAreCounted | src/harness/eval/redteam_public_summary.py:355-386 | The three decision counts of an accepted attempt are the numbers of source cases whose final decision is that word. |
| SummaryMeaning.CaseIsCopied | src/harness/eval/redteam_public_summary.py:249-327 | A published case copies id, classification, both decisions, calls and override flag of its source, counts its system findings, and lists the codes of its concerns, each once and in order; it has no other key. |
| SummaryMeaning.SummarySaysWhatHappened | src/harness/eval/redteam_public_summary.py:444-658 | Of every accepted document: the rendered summary copies six blocks, names run, commit and digests, holds a copy of every case of every attempt and no other, counts the decisions, and lists in its four groups exactly the frozen ids that intervened in every attempt, in some, in none, and with codes that differ between two attempts. |
| PublicationConditions.AcceptedIff | src/harness/eval/redteam_public_summary.py:444-658 | For every document, run id and table of pins: a summary is published if and only if the document carries the pinned words, run, shape and limits, its session is completed, each attempt is valid and holds the thirty frozen cases once each with the recorded k, n, proportion and interval, costs and retries are the sums over all cases, the distribution lists these counts with their least, greatest and a middle one, and no private key occurs at any depth in what is copied. |
| PublicationConditions.RepeatsAreAccepted | src/harness/eval/redteam_public_summary.py:416-441 | The checks on overlap and total of the repeat structure never refuse what passed the checks before them. |
| PublicationConditions.DiscreetIff | src/harness/eval/redteam_public_summary.py:232-243 | The final walk refuses a document exactly for a private key inside a copied block or an index or time of an attempt. |
| SummaryChecks.GoodAttemptIff | src/harness/eval/redteam_public_summary.py:330-389 | The checks on one attempt, over the whole corpus, hold iff it lists each frozen case exactly once, each well formed, counts its interventions, and records their proportion to within a millionth of a millionth. |
| SummaryChecks.GoodCostIff | src/harness/eval/redteam_public_summary.py:540-572 | The cost checks hold iff calls, by stage as well, and retries are the sums over the cases of all attempts. |
| SummaryChecks.GoodDistributionIff | src/harness/eval/redteam_public_summary.py:573-606 | The distribution checks hold iff it lists count and written rate of every attempt in order, a least and a greatest count, and a count with at most half of the list below it and at most half above. |
| Statistics.MiddleIff | src/harness/eval/redteam_public_summary.py:592-606 | The middle entries of the sorted counts are exactly the counts with at most half of the list below them and at most half above. |
| SummaryTheorems.SortKeeps | src/harness/eval/redteam_public_summary.py:330-389 | Sorting the published cases loses and adds nothing. |
| SummaryTheorems.SortOrders | src/harness/eval/redteam_public_summary.py:330-389 | The published cases are in the order of their ids. |
| SummaryTheorems.TabulationCounts | src/harness/eval/redteam_public_summary.py:392-415 | The tabulation holds exactly the ids that occur, each with the number of attempts that classified it as an intervention. |
| SummaryTheorems.IntervenedOfSort | src/harness/eval/redteam_public_summary.py:330-389 | Sorting keeps the number of interventions. |
| SummaryTheorems.AcceptedSummaryAddsUp | src/harness/eval/redteam_public_summary.py:392-658 | Of every accepted document: the per-case hit counts sum to the recorded k of the attempts, and always, sometimes and never split exactly the thirty frozen ids. |
| SummaryTheorems.GroupsPartition | src/harness/eval/redteam_public_summary.py:416-441 | For attempts over one corpus without duplicates, always, sometimes and never are disjoint and cover exactly the corpus. |
| RepeatGroups.GroupsMean | src/harness/eval/redteam_public_summary.py:392-441 | Over the cases of the attempts alone: an id is in always iff every attempt has a case of it that intervened, in never iff none has, in sometimes otherwise, and its severity varied iff it is in always and two attempts publish different codes for it. |
| Noninterference.RemovedFieldsDoNotMatter | src/harness/eval/redteam_public_summary.py:249-658 | Two documents that agree on ids, classifications, decisions, sets of concern codes, list sizes, counts and flags, but differ arbitrarily in concern text, fields, notes and findings, are both refused or give summaries that differ at most in the file digests they name, if their digests are pinned for the same runs. |
| Noninterference.PinAdmitsOneSource | src/harness/eval/redteam_public_summary.py:488-505 | With one table of pins, a document that agrees with an accepted one is accepted with the same summary if its digests are equal, and refused otherwise. |
| Noninterference.NothingForbiddenIsPublished | src/harness/eval/redteam_public_summary.py:154-158 | No forbidden key occurs in a published summary, at any depth. |
| SummaryAcceptance.RowIsPublished | src/harness/eval/redteam_public_summary.py:249-327 | A clean faithful row, as the session writes it, passes the check of a case and is published with its id, its calls and its classification. |
| SummaryAcceptance.RowIsPublishedInFull | src/harness/eval/redteam_public_summary.py:249-327 | Of every publishable session row: the published decision, proposal and override flag are its own, the system findings are counted, and X1 or X2 is among the codes iff a triage finding carries it. |
| SummaryAcceptance.DecisionsArePublished | src/harness/eval/redteam_public_summary.py:330-389 | The published decision counts of a sound valid attempt are the numbers of its cases approved, escalated and asked about. |
| SummaryAcceptance.AttemptIsOk | src/harness/eval/redteam_public_summary.py:330-389 | A sound valid attempt over the frozen corpus passes every check on attempts. |
| SessionPublication.CostIsOk | src/harness/eval/redteam_public_summary.py:540-572 | The cost block of a completed session passes the call and retry cross-checks. |
| SessionPublication.DistributionIsOk | src/harness/eval/redteam_public_summary.py:573-606 | The distribution of a completed session passes the k, n, rate and min/median/max checks iff its middle counts agree, as the middle count of an odd number does. |
| ProducerConsumer.CompletedIsPublishedIff | src/harness/eval/redteam_public_summary.py:586-597 | Whatever the provider did, for every target: a session completed over the frozen ids with zero replacements is accepted iff its middle counts agree. |
| ProducerConsumer.CompletedWithoutReplacementIsPublished | src/harness/eval/redteam_live.py:678-776 | Hence with an odd target, as the shipped one is, every session completed over the frozen ids with zero replacements passes every check of the public-summary builder. |
| Witnesses.SomeSessionIsPublished | src/harness/eval/redteam_public_summary.py:444-658 | There is such a session: the shipped one over thirty clean cases answered without concern. |
| Witnesses.EvenTargetMayBeRefused | src/harness/eval/redteam_public_summary.py:586-597 | With a target of two, a session completed without replacement whose counts are 0 and 30 is refused: the median 15 is neither. |
| ProducerConsumer.ReplacedAttemptIsRefused | src/harness/eval/redteam_public_summary.py:330-345 | For every target and number of replacements: a session with a replaced attempt is refused, even when it completed. |
| ProducerConsumer.AnyInvalidAttemptIsRefused | src/harness/eval/redteam_public_summary.py:330-345 | A record holding any attempt that is not valid is refused. |
| ProducerConsumer.OnlyCompletedIsPublished | src/harness/eval/redteam_public_summary.py:444-658 | What is accepted from the session loop completed, and without replacements. |
| Graph.FindingsAreAccountedFor | src/harness/agent/graph.py:100-292 | The final findings are exactly the check findings, the triage findings and the T0s, in order, and the decision is the guardrail reading of them. |
| Graph.Bookkeeping | src/harness/agent/graph.py:85-100 | Over any node list: findings, trajectory and skipped list each grow by exactly what the nodes contribute. |
| Graph.ResultsKept | src/harness/agent/graph.py:85-100 | The check results are those of the nodes, in order. |
| FailClosed.RunFindingsAreSound | src/harness/contracts/findings.py:72-110 | Every finding of every run is one the finding contract admits, with the severity and codes its origin allows. |
| FailClosed.ShippedRegistryIsVetted | src/harness/rules/templates.py:23-71 | The shipped template fires deterministic domain findings only, the one assumption the theorems on runs make about a registry. |
| Witnesses.UnvettedTemplateHides | src/harness/agent/graph.py:63-76 | Without that assumption a template may fire an informational system finding: a concrete registry whose run over a clean dossier holds a system finding and is approved. |
| FailClosed.SystemForcesEscalate | src/harness/agent/graph.py:63-76 | A run with any system finding finalizes to escalate, for every dossier, rule list and model behaviour. |
| FailClosed.FailedCallsEscalate | src/harness/agent/graph.py:176-268 | A triage call or a synthesis call without a usable answer leaves a system finding, hence escalates. |
| FailClosed.UsableAnswersAddNoSystem | src/harness/agent/graph.py:176-268 | With two usable answers the only possible system findings are those of broken rules. |
| FailClosed.UsableAnswersDecide | src/harness/agent/graph.py:176-268 | With two usable answers a run escalates iff some check finding is unexplainable or some concern says unexplainable, up to case and outer whitespace, and approves iff there is no concern and every check finding is informational. |
| FailClosed.FailedCallsAreNamed | src/harness/agent/graph.py:63-100 | A failed triage call leaves a T0 of its stage and kind right after the check findings, a failed synthesis call, or an unavailable proposal, one at the end; nothing else is added besides one finding per concern. |
| FailClosed.GuardrailSays | src/harness/agent/guardrail.py:63-100 | For every run: the finalization mode says whether there was a proposal, the override flag whether the decision differs from it, and the actions open a case unless it approves and escalate it iff it escalates. |
| FailClosed.TriageNeverLowers | src/harness/agent/graph.py:176-207 | Whatever the triage call does, the decision is at least that of the same run without concerns. |
| FailClosed.ProposalContentIsIrrelevant | src/harness/agent/guardrail.py:63-100 | What an available proposal says influences neither the decision nor the findings nor the stored record. |
| FailClosed.RecordAgrees | src/harness/agent/graph.py:280-292 | The stored record carries the final decision and says escalated iff some check, triage or system finding of the run is unexplainable. |
| FailClosed.GatedRulesChangeNothing | src/harness/rules/gate.py:59-102 | A whole list of gate-passing rules changes neither findings nor decision of a run over a gated dossier, against no rules at all. |
| FailClosed.GatedRuleChangesNothing | src/harness/rules/gate.py:59-102 | Adding a gate-passing rule changes neither findings nor decision of a run over a gated dossier. |
| Guardrail.DecideJoins | src/harness/agent/guardrail.py:48-60 | The decision over two lists of findings is the stricter of their two decisions. |
| Guardrail.ConvertConcerns | src/harness/agent/triage.py:66-85 | The concern loop yields one clamped finding per concern, in order. |
| Guardrail.ConcernsAreClamped | src/harness/agent/triage.py:66-85 | Finding i is X2 and unexplainable iff concern i says that word, up to case and outer whitespace, and X1 and explainable otherwise, with the detail and fields of the concern. |
| Guardrail.TriageOnlyRaises | src/harness/agent/triage.py:66-85 | Triage findings never lower a decision, and one concern already rules approval out. |
| Trajectory.TrajectoryOfRun | src/harness/agent/graph.py:104-173 | The trajectory and the skipped list of a run, from the edge order and the documents present. |
| Trajectory.EachCheckIsRunOrSkipped | src/harness/agent/graph.py:85-172 | Each check node is in exactly one of trajectory and skipped list, with a matching ran flag, and a skipped check found nothing. |
| Trajectory.RunMatchesExpectedFlow | src/harness/generate/synthetic.py:188-206 | For every dossier and model behaviour, the skipped list is the expected one and the trajectory matcher accepts. |
| Trajectory.FullTrajectoryMatches | src/harness/eval/metrics.py:58-94 | The matcher accepts the full node sequence against the expected flow, for any split of the document checks. |
| Trajectory.MatchIffConforms | src/harness/eval/metrics.py:58-94 | For every trajectory and skipped list, acceptance without positions: the expected nodes ran, the expected skips happened, nothing did both, the five fixed nodes ran, and some occurrence of each later node follows every one of the earlier. |
| Trajectory.MismatchesAreRefused | src/harness/eval/metrics.py:58-94 | An absent expected node, an unmet skip, a node both run and skipped, and a document check after the last synthesis are refused. |
| Trajectory.RunMatchesOnlyItsFlow | src/harness/generate/synthetic.py:188-206 | A run matches the flow expected for some set of documents iff that is the flow expected for its own. |
| Metrics.CodesAreReported | src/harness/eval/metrics.py:32-47 | A code is reported iff a finding that is not a system finding has it, and NONE iff there is no such finding. |
| Checks.MatchShareholders | src/harness/agent/checks.py:150-171 | The greedy nested loops compute the matching function: pairs, exited and new holders. |
| Checks.CheckUboDerivation | src/harness/agent/checks.py:441-508 | An impossible declaration gives one D1b and nothing else; otherwise the loop yields one D1a per undeclared required owner, in order. |
| CheckMeanings.IdentityMeans | src/harness/agent/checks.py:89-146 | A2 iff two documents present differ in their tax ids up to outer whitespace, then A1 iff two differ in their legal names and each is the same entity as the first; nothing else. |
| CheckMeanings.OwnershipMeans | src/harness/agent/checks.py:174-290 | For all lists, when the check finds B2b, B2a, nothing, B1a and B1b. |
| CheckMeanings.AuthorityMeans | src/harness/agent/checks.py:296-380 | The first signatory of the name of the declarant decides: C2 iff the authority expired before the declaration; without one, C1a iff the circular is more than 365 days older, C1b otherwise. |
| CheckMeanings.UboMeans | src/harness/agent/checks.py:441-508 | D1b alone iff the declared percentages are impossible, otherwise as many D1a as holders of a quarter or more without a match among the declared. |
| CheckMeanings.CompletenessMeans | src/harness/agent/checks.py:383-438 | One E1 per missing document, then one E2 per blank mandatory field. |
| Ownership.Partition | src/harness/agent/checks.py:150-171 | Both lists are partitioned as multisets, positions are used at most once, pairs are matches, and no match is left between the leftovers. |
| Ownership.TransferArithmetic | src/harness/agent/checks.py:241-251 | exited minus gained equals the gap between the sums minus what continuing holders lost. |
| Ownership.ReconcilesIffNothingLost | src/harness/agent/checks.py:241-251 | With equal sums, condition (iii) holds iff continuing holders lost less than the tolerance in total. |
| Ownership.RedistributionIsNotATransfer | src/harness/agent/checks.py:234-268 | With equal sums, a redistribution among the same holders is never an explainable transfer. |
| Ownership.RedistributionIsATransferIff | src/harness/agent/checks.py:234-268 | Whatever the sums, the exact condition under which such a redistribution is reported as an explainable transfer. |
| Ownership.TransferIff | src/harness/agent/checks.py:174-290 | For all lists, the exact condition for an explainable transfer: a newer declaration, both sums in tolerance, some holder of one list matching some holder of the other, condition (iii) in terms of the sums and the losses, and somebody left over or a pair moved. |
| Ownership.OtherVerdictsIff | src/harness/agent/checks.py:174-290 | For all lists, the exact condition for each of the other verdicts. |
| Ownership.CompleteChangeIsUnexplained | src/harness/agent/checks.py:244-290 | With both sums in tolerance and no match between the lists the verdict is B1b. |
| Ownership.RoundingCanLookLikeATransfer | src/harness/agent/checks.py:234-268 | A concrete pair of lists, both sums inside their tolerance, for which that condition is met. |
| Ownership.OrderIndependence | src/harness/agent/checks.py:150-171 | For names that match one to one, matching outcome and verdict are the same for every order of either list. |
| Ownership.EquivalenceOrderIndependence | src/harness/agent/checks.py:150-171 | An equivalence matcher with at most one holder per class in each list is such a case. |
| MatchingOrder.OrderFreeIffOneToOne | src/harness/agent/checks.py:150-171 | For lists without repeated holders, the pairs made are the same for every order of both lists if and only if names match one to one. |
| Ownership.FuzzyMatchingDependsOnOrder | src/harness/agent/checks.py:150-171 | For a matcher that is not transitive, reversing the first list changes the verdict. |
| Rules.FenceIsExact | src/harness/rules/schema.py:74-101 | No parameter error is reported exactly for the known, complete, in-range, integral instantiations. |
| Rules.TemplateRegistry.Register | src/harness/rules/schema.py:54-59 | A template is added under its id, or refused and nothing changes if the id is taken. |
| Rules.CheckLearnedRules | src/harness/agent/learned_rules.py:34-76 | The rule loop appends one finding per firing rule and one system finding per failing rule, and goes on. |
| Rules.RuleMeans | src/harness/agent/learned_rules.py:34-76 | A rule finds what its template fires if template and parameters are valid, nothing if it is silent, and a T1 system finding whenever it cannot be evaluated. |
| Rules.CeilingMeans | src/harness/rules/templates.py:23-71 | The shipped template fires an explainable F1 exactly for a registry at most so many days after the founding with more than so much capital, and raises exactly where it needs a missing parameter. |
| Rules.RunValidationGate | src/harness/rules/gate.py:59-102 | The gate loop collects exactly the regressions, and its verdict is fence and no regression. |
| Rules.PassesIffSilent | src/harness/rules/gate.py:59-102 | A rule passes iff it is a valid instantiation that is silent on every known dossier. |
| Rules.GateSoundness | src/harness/rules/gate.py:59-102 | Appending a passing rule to any rule list leaves the learned findings of every gated dossier unchanged. |
| Rules.StricterCeilingPasses | src/harness/rules/templates.py:23-50 | Lowering the age bound or raising the capital bound, within limits, keeps a pass. |
| Rules.RuleStore.Promote | src/harness/rules/store.py:47-76 | A promotion is admitted iff approved, passed, matching in ids and new; it appends the rule or changes nothing, and keeps ids distinct. |
| RulePromotion.ReportedStorePasses | src/harness/rules/store.py:47-76 | Over any sequence of requests whose reports were made for the promoted parameters, every stored rule passes the gate. |
| RulePromotion.ReportedStoreIsSilent | src/harness/rules/store.py:47-76 | A store filled by such requests finds nothing on any gated dossier. |
| RulePromotion.CeilingPassesIff | src/harness/rules/templates.py:23-71 | A rule of the shipped template passes iff its parameters are in bounds and no known registry has an age between zero and the bound and a capital above the other. |
| RulePromotion.StoreTrustsIdsOnly | src/harness/rules/store.py:62-66 | A concrete store request: the report on a strict rule admits a lax one of the same ids, which the gate refuses on the same known dossier and which then fires on it. |
| Rules.StoreOverRuns | src/harness/rules/store.py:47-76 | Over any sequence of requests the store only grows at its end, keeps ids distinct, and gains only approved rules with a passing report naming them. |
| SuffixRewriting.OrderIndependence | src/harness/normalize/turkish.py:85-89 | For any coherent vocabulary the passes compute one simultaneous sweep, in whatever order they are made. |
| SuffixRewriting.NothingSurvives | src/harness/normalize/turkish.py:85-89 | No token-bounded surface survives the sweep and none is created by it. |
| SuffixRewriting.FixedIffFree | src/harness/normalize/turkish.py:85-89 | A text is unchanged exactly when no surface occurs in it. |
| LegalSuffixes.VocabularyIsCoherent | src/harness/normalize/config.py:36-51 | The shipped vocabulary satisfies the theory. |
| LegalSuffixes.CanonicalizeSuffixes | src/harness/normalize/turkish.py:73-89 | The loop over the surfaces, longest first, computes the canonical text. |
| LegalSuffixes.AnyOrder | src/harness/normalize/turkish.py:73-89 | Any order of passes over exactly the vocabulary computes the same text. |
| LegalSuffixes.CanonicalizeIsIdempotent | src/harness/normalize/turkish.py:73-89 | Canonicalization is idempotent, leaves no surface, and fixes exactly the surface-free texts. |
| Turkish.TurkishLowering | src/harness/normalize/turkish.py:54-63 | The replacement loop computes the lowercase function. |
| Turkish.KeyShape | src/harness/normalize/turkish.py:92-102 | A matching key holds key characters and single inner spaces only, none at either end. |
| MatchingKeys.FixedIffShapedAndFree | src/harness/normalize/turkish.py:92-102 | A text is its own matching key iff it consists of key characters with single inner spaces and spells no legal suffix. |
| MatchingKeys.IdempotentIffFree | src/harness/normalize/turkish.py:92-102 | Hence computing the key twice changes nothing iff the key spells no legal suffix. |
| MatchingKeys.KeyMayChangeAgain | src/harness/normalize/turkish.py:92-102 | The key of ltd.sti is ltd sti, which spells one and has another key. |
| KeyWords.KeyIsItsWords | src/harness/normalize/turkish.py:92-102 | A matching key is the words of the lowered, canonicalized and folded text, its maximal runs of key characters, in order and one space apart. |
| KeyWords.ScoresDecideOtherwise | src/harness/normalize/turkish.py:105-126 | Whatever the score function: names with one key match, and others exactly from a score of ninety for people and eighty-five for companies. |
| KeyWords.SpacesAre | src/harness/normalize/turkish.py:71-89 | The white space a surface is bounded by is exactly the twenty-nine characters Python matches by that class. |
| SpellingVariants.CasesPair | src/harness/generate/synthetic.py:83-85 | Upper-casing and lower-casing exchange the letters of each pair of the Turkish alphabet, the dotted and the dotless i among them, and change nothing else. |
| SpellingVariants.MarksDrop | src/harness/normalize/turkish.py:38-52 | Folding and degrading take exactly these letters to these, and change nothing else. |
| SpellingVariants.LowerUndoesUpper | src/harness/generate/synthetic.py:83-85 | Lowercasing the upper-cased text is lowercasing the text, for every text over ASCII, the Turkish letters and the circumflexed vowels. |
| SpellingVariants.KeyIgnoresCapitals | src/harness/normalize/turkish.py:92-102 | The matching key is invariant under the upper-casing transform, for every text over that alphabet. |
| SpellingVariants.KeyIgnoresDegrading | src/harness/generate/synthetic.py:88-90 | It is invariant under ASCII degradation for text with no suffix phrase in either spelling. |
| SpellingVariants.SpellingsShareOneKey | src/harness/generate/synthetic.py:312-328 | For every head without a suffix phrase and every legal form, the proper, the all-caps and the degraded legal name have one key. |
| Generator.DistinctPeople | src/harness/generate/synthetic.py:224-230 | The drawing loop yields the first n distinct names of the draws, and nothing if the draws run out. |
| Isolation.CleanBaseIsBase | src/harness/generate/synthetic.py:254-306 | Every choice the generator can make gives a base with two or three holders summing to 100, all required owners declared, and signatures in date. |
| Isolation.BaseIsClean | src/harness/generate/synthetic.py:254-306 | A clean base has no finding through all five checks, even when drawn names collide under the matcher. |
| SpellingIsolation.A1Isolated | src/harness/generate/synthetic.py:312-328 | Three spellings of one company and degraded names: one informational A1 and nothing else, for all fuzzy scores. |
| Isolation.A2Isolated | src/harness/generate/synthetic.py:331-337 | Exactly one A2. |
| Isolation.B1Isolated | src/harness/generate/synthetic.py:340-367 | Exactly one B1a for a newer declaration, exactly one B1b for an older one. |
| Isolation.B2aIsolated | src/harness/generate/synthetic.py:370-376 | Exactly one B2a, for every shortfall. |
| Isolation.B2bIsolated | src/harness/generate/synthetic.py:379-389 | Exactly one B2b, for every excess. |
| Isolation.C1aIsolatedIff | src/harness/generate/synthetic.py:399-406 | Exactly one C1a if and only if the stranger matches no signatory; otherwise nothing is found. |
| Isolation.C1bIsolatedIff | src/harness/generate/synthetic.py:409-415 | The same for C1b. |
| Isolation.C2Isolated | src/harness/generate/synthetic.py:418-422 | Exactly one C2. |
| Isolation.D1aIsolatedIff | src/harness/generate/synthetic.py:425-433 | Exactly one D1a if and only if no remaining declared owner matches the omitted one; otherwise nothing. |
| Isolation.D1bIsolated | src/harness/generate/synthetic.py:436-442 | Exactly one D1b. |
| Isolation.E1Isolated | src/harness/generate/synthetic.py:445-449 | Exactly one E1, whichever document is dropped. |
| Isolation.E2Isolated | src/harness/generate/synthetic.py:452-455 | Only E2: three for a blank tax id, one for any other blank field. |
| Isolation.BoundaryC1aIsolatedIff | src/harness/generate/synthetic.py:470-476 | One day past the staleness limit: C1a if and only if the stranger matches no signatory. |
| Isolation.BoundaryC1bIsolatedIff | src/harness/generate/synthetic.py:479-487 | Exactly at the limit: C1b under the same condition. |
| Isolation.BoundaryC2Isolated | src/harness/generate/synthetic.py:490-493 | One day expired is C2. |
| Isolation.BoundaryNoneIsClean | src/harness/generate/synthetic.py:496-505 | A holder just below the threshold need not be declared. |
| Isolation.BoundaryD1aIsolatedIff | src/harness/generate/synthetic.py:508-517 | A holder exactly at the threshold is missed if and only if the unchecked name matches the lead owner. |
| GeneratedCases.RecipeFinds | src/harness/generate/synthetic.py:533-560 | Every recipe finds exactly what it is labelled with, or nothing when names collide. |
| GeneratedCases.GeneratedAsLabelled | src/harness/generate/synthetic.py:41-56 | Through all checks and the guardrail, the code set and decision are the labelled ones if and only if the drawn names do not collide; a collision makes the case look clean. |
| GeneratedCases.EveryDrawIsLabelled | src/harness/generate/synthetic.py:545-560 | The same for every draw from the name pools, every recipe and all fuzzy scores. |
| NamePools.DrawnNamesArePlain | src/harness/generate/pools.py:13-58 | No person or company head that can be drawn contains a suffix phrase in any spelling. |
| Blueprints.Blueprint.InjectA1InPlace | src/harness/generate/synthetic.py:312-328 | The in-place injector, with its head search, has the effect of the plan function. |
| Blueprints.Blueprint.InjectA2InPlace | src/harness/generate/synthetic.py:331-337 | The redraw loop ends with the first differing tax id, or with nothing changed if the draws run out. |
| Blueprints.Blueprint.ExtendSignatories | src/harness/generate/synthetic.py:411-412 | The loop extends the authority of every signatory and changes nothing else. |
| Generator.NewPersonNotIn | src/harness/generate/synthetic.py:392-396 | The loop yields the first draw whose spelling is not among the given ones, and nothing if all of them are. |
| GeneratedCases.UncheckedNameCanCollide | src/harness/generate/synthetic.py:508-517 | From every base a colliding draw exists: when the unchecked second holder is the lead again, the case labelled D1a runs with code set NONE and is approved. |
| GeneratedRuns.GenerateAndScreen | src/harness/generate/synthetic.py:533-560 | A blueprint drawn from the pools, edited in place, rendered and screened: labelled code set and decision if and only if the drawn names do not collide, clean and approved otherwise. |
| GeneratedRuns.GenerateForCode | src/harness/generate/synthetic.py:545-560 | The loop for one code, with the last quarter of the cases from the boundary: every run carries exactly the code and its decision, or comes from a colliding draw and carries nothing. |
| InjectionEffects.RecipesDoThis | src/harness/generate/synthetic.py:312-517 | For every clean base and every recipe: the rendered documents differ from those of the base exactly as stated, such as a circular by so many days older or one holder gone whose part the first one holds, and in nothing else. |
| Calendar.FourYearsBeforeIs | src/harness/generate/synthetic.py:399-406 | For a day of any year, by the closed form of the Gregorian calendar: the reset incorporation date is the first of January four years before. |
| Calendar.FourYearsBack | src/harness/generate/synthetic.py:399-406 | The reset incorporation date lies between four and five years before the moved registry date. |
| Wilson.IntervalIsTheScoreSet | src/harness/eval/stats.py:22-43 | For every count and size: an interval exactly for a count in range, and then a real x is in it iff (x-p)^2 <= z^2 x(1-x)/n, given the nonnegative square root; nothing for n = 0, an error otherwise. |
| Wilson.ClampsNeverBind | src/harness/eval/stats.py:37-43 | The clamps never bind. |
| Wilson.Brackets | src/harness/eval/stats.py:22-43 | The interval contains k/n. |
| Wilson.NeverDegenerate | src/harness/eval/stats.py:22-43 | It has positive width even for k = 0 and k = n. |
| Wilson.Symmetric | src/harness/eval/stats.py:22-43 | The interval of n-k is the mirrored interval of k. |
| Wilson.LowIsMonotone | src/harness/eval/stats.py:22-43 | The lower end is monotone in k. |
| Wilson.HighIsMonotone | src/harness/eval/stats.py:22-43 | The upper end is monotone in k. |
| RecordPublication.FileSystem.Publish | src/harness/eval/redteam_record.py:721-797 | One publisher left alone: the claim, both writes and the cleanup have exactly the effect of the step relation run to its end. |
| RecordPublication.OthersAreUntouched | src/harness/eval/redteam_record.py:739-797 | No step of one publisher touches a directory claimed by another or by nobody. |
| RecordPublication.ForeignDirectoriesSurvive | src/harness/eval/redteam_record.py:739-797 | Under any interleaving, failures and intrusions, a directory no publisher created is never modified or removed. |
| RecordPublication.PublishedIsComplete | src/harness/eval/redteam_record.py:739-797 | Under any interleaving every returned directory belongs to its claimer, holds exactly its two complete files, and satisfies the validity predicate. |
| RecordPublication.PublishedIsForever | src/harness/eval/redteam_record.py:739-797 | It keeps holding them, whatever happens afterwards. |
| RecordPublication.RemnantOnlyAfterFailedCleanup | src/harness/eval/redteam_record.py:765-797 | After a reported failure the directory of the publisher remains iff what was raised is the cleanup failure. |
| RecordPublication.OneWinner | src/harness/eval/redteam_record.py:739-764 | One run id is held by at most one publisher. |
| RecordPublication.ParentIsKept | src/harness/eval/redteam_record.py:739-797 | A parent that every publisher found in place is never removed. |
| RecordPublication.CompleteIffFinished | src/harness/eval/redteam_record.py:739-797 | In every reachable world a claimed directory holds both files whole iff its claimer has filled both, whatever failed or was killed. |
| RecordPublication.ValidMeans | src/harness/eval/redteam_record.py:691-708 | A directory is valid iff it holds the two files and nothing else, and neither is a link or a directory. |
| RecordPublication.FailedCleanupLeaves | src/harness/eval/redteam_record.py:773-797 | A cleanup that fails half-way leaves exactly the entries it had not removed, and touches nothing else. |
| RecordPublication.ValidIffFinishedOrTorn | src/harness/eval/redteam_record.py:691-708 | In every reachable world the validity predicate accepts a claimed directory iff it is finished, or torn: the claimer was stopped between opening and filling the Markdown file, or failed there and did not clean up. |
| RecordPublication.ValidDirectoryMayBePartial | src/harness/eval/redteam_record.py:691-708 | Both kinds of torn directory are reachable: by a kill in the middle of the Markdown write with nothing raised, and by a failed write whose cleanup fails. |
| HoldoutFreeze.ObserveHoldout | src/harness/data/freeze_holdout.py:85-141 | The observation loop summarizes exactly the stub runs of the cases. |
| HoldoutFreeze.RowSays | src/harness/data/freeze_holdout.py:85-113 | A row holds the decision of a run whose model agrees with the policy, and its three flags compare decision, reported codes and trajectory with the declared truth. |
| HoldoutFreeze.SummaryCounts | src/harness/data/freeze_holdout.py:115-141 | The four numbers of an observation count the rows with that flag and those that should not be approved, and its false approvals are exactly the ids of such rows that were. |
| HoldoutFreeze.AcceptedIffAllMatch | src/harness/data/freeze_holdout.py:144-174 | For every observation: accepted iff every row matches on all three axes and all counts equal the number of cases; one summarized from its rows is accepted iff every row matches. |
| HoldoutFreeze.AcceptedHasNoFalseApproval | src/harness/data/freeze_holdout.py:154-174 | An accepted corpus has no false approval. |
| HoldoutFreeze.FreezeDirectory.Freeze | src/harness/data/freeze_holdout.py:271-322 | The two-file write protocol, killed anywhere, has the effect and verdict of the run function. |
| HoldoutFreeze.ManifestMeansComplete | src/harness/data/freeze_holdout.py:285-322 | Over any sequence of killed and repeated runs: if there is a manifest, the pin is the freshly built one and every case matched. |
| HoldoutFreeze.FrozenIsForever | src/harness/data/freeze_holdout.py:285-322 | Once there is a manifest no further run changes anything. |
| HoldoutFreeze.MismatchWritesNothing | src/harness/data/freeze_holdout.py:285-322 | Fixtures that may not be frozen never cause a write. |
| HoldoutFreeze.PlainRunRecovers | src/harness/data/freeze_holdout.py:285-322 | Any state without a manifest, with a stale pin or leftover temporary files, is completed by one plain run. |
| HoldoutFreeze.KilledRunsDoNotMark | src/harness/data/freeze_holdout.py:271-322 | A killed run never produces the manifest. |
| ScientificReport.InducedIff | src/harness/eval/scientific_report.py:208-226 | A run with a system failure counts as induced iff no non-system finding is unexplainable. |
| ScientificReport.RecordSays | src/harness/eval/scientific_report.py:308-327 | A record says whether decision and reported codes are the declared ones, and counts the system findings and each of their kinds. |
| ScientificReport.CounterfactualMeans | src/harness/eval/scientific_report.py:208-211 | The counterfactual decision of a run is the one its findings other than system findings lead to. |
| ScientificReport.BuildOperationalReliability | src/harness/eval/scientific_report.py:214-245 | The loops count runs, failed runs, induced runs and error kinds. |
| ScientificReport.InducedAreCounted | src/harness/eval/scientific_report.py:214-245 | The runs counted as induced are exactly the induced ones among the records. |
| ScientificReport.FailuresAreCounted | src/harness/eval/scientific_report.py:214-245 | The two numbers of runs are those with a system failure and those that are induced. |
| ScientificReport.AllKindsAreCounted | src/harness/eval/scientific_report.py:214-245 | The table of error kinds counts every occurrence of every kind. |
| ScientificReport.BucketByCode | src/harness/eval/scientific_report.py:102-121 | The loop fills the per-code buckets of the records. |
| ScientificReport.BucketsAddUp | src/harness/eval/scientific_report.py:102-121 | Every run is in exactly one bucket: the buckets sum to the totals. |
| ScientificReport.BucketHolds | src/harness/eval/scientific_report.py:102-121 | The bucket of a code holds the number of its runs and of its correct ones. |
| ScientificReport.BuildLearnedRuleMarginal | src/harness/eval/scientific_report.py:127-179 | The loop returns the marginal of its specification: refused iff the passes cover different cases; otherwise the counters are the sizes of the sets of changed cases. |
| ScientificReport.DeltaIsTheDifferenceIff | src/harness/eval/scientific_report.py:149-176 | For all records over equal id sets: the net delta is the difference of the two correct counts iff both passes lose the same number of correct records to repeated ids. |
| ScientificReport.RepeatedIdsBreakTheDelta | src/harness/eval/scientific_report.py:149-176 | A concrete pair of passes with a repeated id for which it is not. |
| ScientificReport.GatedRulesHaveNoMarginal | src/harness/eval/scientific_report.py:127-179 | On cases the promoted rules were gated on, the result of the paired diff of the whole promoted set against none has zero newly correct, zero newly incorrect and equal counts, whatever is answered case by case and whatever the two passes propose. |
| ScientificReport.DeltaIsTheDifference | src/harness/eval/scientific_report.py:149-176 | For distinct ids the net delta is the difference of the two correct counts. |

## Left out

- Turkish.Lower: lowercases ASCII, the Turkish letters and the circumflexed vowels only; other characters stay as they are.
- SpellingVariants.LowerUndoesUpper: the upper-casing covers the same alphabet; outside of it upper() can yield more than one letter.
- SpellingVariants.KeyIgnoresCapitals: likewise.
- Turkish.PersonNamesMatch: the fuzzy ratio is an arbitrary score, so nothing is said about which unequal keys match.
- Turkish.LegalNamesMatch: likewise.
- Wilson.Ci: works on reals with a given square root; IEEE-754 rounding is not modelled.
- PublicSummary.BuildPublicSummary: collapses all refusal reasons into one, counts any Python exception on malformed input as a refusal, and accepts list-typed fields only as lists.
- RecordPublication.Advance: the claimer of a directory is history the file system does not store; a killed process is a publisher that is never scheduled again, and opening and filling a file are the two points it can be killed between.
- Blueprints.Blueprint: parties and signatories are values in sequences, so aliasing between the two shareholder lists is not modelled.
- ScientificReport.Pass: the records stay in case order instead of being sorted by id.
- PublicSummary.Rendered: writes whole floats from zero up as Python does; the k of an accepted attempt is no other float.
- PublicSummary.DerivationJson: the constant texts of the derivation block are omitted; the run id, the commit and the source digests are kept.
- SessionJson.SessionJson: clocks, provenance, prompt hashes, prose and provider settings are parameters.
- ProducerConsumer.CompletedWithoutReplacementIsPublished: the run block (identity, digest pinning, git fields) is assumed to pass by itself, and the provider settings to be flat.
- CallBudget.RetryingLLMClient: backoff delays and jitter are not modelled; only how often a retry happens is.
- HoldoutFreeze.FreezeDirectory.Freeze: hashes, git revision and file contents are functions of the fixtures and the run.
- Rules.Gate: the informational anomaly preview of the gate is not modelled.
- The provider client, HTTP service, command lines, environment variables and logging are not part of this model.
- LangGraph is modelled as the fixed sequence of its linear edges; SQLite as the record that `act` hands to the store.
- Finding prose, timestamps, prompt texts, note texts, banners and Markdown rendering are not part of this model.
- The address, status, notary and ownership-path fields of the documents are not read by the checks and are omitted.
- Python's `Random` is replaced by universally quantified choices; nothing is said about frequencies.
- KeyboardInterrupt and other exceptions outside `Exception` in the session loop are not modelled.
- Preflight and the frozen-contract checklist are long lists of equalities; each line settles itself.
- The publication of the public summary and of the session follows the protocol of `RecordPublication` and is not modelled a second time.
- The simple counter reports, recall and false-positive scripts, and extraction accuracy are settled by reading one branch.
- Whether the model detects anything, and whether labels are right, is not decided by this code.
