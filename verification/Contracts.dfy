/** The dossier documents and the agent's output contracts. Percentages are reals and dates
    are day numbers. */
module Contracts {

  datatype Option<+T> = None | Some(value: T)

  // ----- findings -----

  datatype Severity = Info | Explainable | Unexplainable
  datatype Decision = Approve | RequestMoreInfo | Escalate
  datatype Origin = Deterministic | AiTriage | System
  datatype ErrorKind = Timeout | ProviderError | SchemaInvalid | UnexpectedException | RuleRuntimeError

  datatype Code =
    | A1 | A2 | B1a | B1b | B2a | B2b | C1a | C1b | C2 | D1a | D1b | E1 | E2
    | X1 | X2 | F1 | T0 | T1

  // The nodes of the screening graph, in edge order.
  datatype Node =
    | Extract | ResolveEntities
    | IdentityCheck | OwnershipCheck | AuthorityCheck | UboCheck | CompletenessCheck | LearnedRulesCheck
    | TriageNode | SynthesisNode | GuardrailNode | ActNode

  datatype Finding = Finding(
    check: Node, code: Code, severity: Severity, origin: Origin, errorKind: Option<ErrorKind>,
    detail: string, fields: seq<string>)

  // The correspondence the Finding validator enforces on construction.
  predicate Lawful(f: Finding) {
    (f.origin.System? <==> f.code in {T0, T1}) && (f.errorKind.Some? <==> f.origin.System?)
  }

  predicate HasOrigin(fs: seq<Finding>, o: Origin) {
    exists i :: 0 <= i < |fs| && fs[i].origin == o
  }

  // A finding of a deterministic check; its prose is not modelled.
  function CheckFinding(check: Node, code: Code, severity: Severity): Finding {
    Finding(check, code, severity, Deterministic, None, "", [])
  }

  datatype CheckResult = CheckResult(check: Node, ran: bool, findings: seq<Finding>)

  function Rank(d: Decision): nat {
    match d
    case Approve => 0
    case RequestMoreInfo => 1
    case Escalate => 2
  }

  // ----- what the model returns -----

  datatype NovelConcern = NovelConcern(detail: string, fields: seq<string>, severity: string)
  datatype TriageResult = TriageResult(concerns: seq<NovelConcern>)

  // An available proposal carries a decision; an unavailable one carries none.
  datatype Proposal = Available(decision: Decision, reasoning: string) | Unavailable

  datatype Outcome<+T> = Returned(value: T) | RaisedLLMError(kind: ErrorKind) | RaisedOther

  // ----- documents -----

  datatype Holder = Holder(name: string, pct: real)
  datatype Authority = Sole | Joint
  datatype Signatory = Signatory(name: string, authority: Authority, validUntil: Option<int>)

  datatype Registry = Registry(
    date: int, legalName: string, taxId: string, incorporation: int, capital: real, shareholders: seq<Holder>)
  datatype Circular = Circular(date: int, legalName: string, taxId: string, signatories: seq<Signatory>)
  datatype Ubo = Ubo(
    date: int, legalName: string, taxId: string, shareholders: seq<Holder>, declared: seq<Holder>, declarant: string)

  datatype Dossier = Dossier(id: string, registry: Option<Registry>, circular: Option<Circular>, ubo: Option<Ubo>)

  function Total(hs: seq<Holder>): real {
    if hs == [] then 0.0 else hs[0].pct + Total(hs[1..])
  }

  // The two cross-document name relations every check goes through.
  datatype EntityMap = EntityMap(samePerson: (string, string) -> bool, sameLegal: (string, string) -> bool)
}
