/** The learned-rule machinery: templates and their parameter fence, evaluation with per-rule
    failure capture, the validation gate, and the append-only store. */
module Rules {
  import opened Contracts
  import Turkish

  datatype Param = MaxAgeDays | MaxCapital | OtherParam(name: string)
  datatype Kind = IntKind | FloatKind
  datatype ParamSpec = ParamSpec(minimum: real, maximum: real, kind: Kind)
  datatype Evaluation = Fires(finding: Finding) | Silent | Raises

  datatype Template = Template(
    id: string, specs: map<Param, ParamSpec>, evaluate: (Dossier, map<Param, real>) -> Evaluation)

  datatype CandidateRule = CandidateRule(ruleId: string, templateId: string, params: map<Param, real>)

  type Registry_ = map<string, Template>

  // Templates are registered once; a second registration of an id is refused.
  class TemplateRegistry {
    var templates: Registry_

    method Register(t: Template) returns (ok: bool)
      modifies this
      ensures ok <==> t.id !in old(templates)
      ensures templates == if ok then old(templates)[t.id := t] else old(templates)
    {
      ok := t.id !in templates;
      if ok {
        templates := templates[t.id := t];
      }
    }
  }

  // ----- the parameter fence -----

  datatype ParamError = MissingParam(p: Param) | UnknownParam(p: Param) | NotInteger(p: Param) | OutOfBounds(p: Param)

  predicate IsInteger(x: real) {
    x.Floor as real == x
  }

  function ValidateParams(t: Template, params: map<Param, real>): set<ParamError> {
    (set p | p in t.specs && p !in params :: MissingParam(p))
    + (set p | p in params && p !in t.specs :: UnknownParam(p))
    + (set p | p in t.specs && p in params && t.specs[p].kind.IntKind? && !IsInteger(params[p]) :: NotInteger(p))
    + (set p | p in t.specs && p in params
        && (params[p] < t.specs[p].minimum || params[p] > t.specs[p].maximum) :: OutOfBounds(p))
  }

  ghost predicate Instantiates(t: Template, params: map<Param, real>) {
    && params.Keys == t.specs.Keys
    && (forall p :: p in t.specs ==> t.specs[p].minimum <= params[p] <= t.specs[p].maximum)
    && (forall p :: p in t.specs && t.specs[p].kind.IntKind? ==> IsInteger(params[p]))
  }

  // No error is reported exactly for the in-range instantiations of the template.
  lemma FenceIsExact(t: Template, params: map<Param, real>)
    ensures ValidateParams(t, params) == {} <==> Instantiates(t, params)
  {
    var errors := ValidateParams(t, params);
    if errors == {} {
      forall p | p in t.specs ensures p in params { assert MissingParam(p) !in errors; }
      forall p | p in params ensures p in t.specs { assert UnknownParam(p) !in errors; }
      forall p | p in t.specs ensures t.specs[p].minimum <= params[p] <= t.specs[p].maximum {
        assert OutOfBounds(p) !in errors;
      }
      forall p | p in t.specs && t.specs[p].kind.IntKind? ensures IsInteger(params[p]) {
        assert NotInteger(p) !in errors;
      }
    }
  }

  // ----- evaluation -----

  function EvaluateRule(reg: Registry_, rule: CandidateRule, d: Dossier): Evaluation {
    if rule.templateId !in reg then Raises
    else if ValidateParams(reg[rule.templateId], rule.params) != {} then Raises
    else reg[rule.templateId].evaluate(d, rule.params)
  }

  const BROKEN_RULE: Finding :=
    Finding(LearnedRulesCheck, T1, Unexplainable, System, Some(RuleRuntimeError), "", [])

  function RuleFindings(reg: Registry_, rule: CandidateRule, d: Dossier): seq<Finding> {
    match EvaluateRule(reg, rule, d)
    case Fires(f) => [f]
    case Silent => []
    case Raises => [BROKEN_RULE]
  }

  // What a rule finds: the template's own finding if the template is known, the parameters instantiate it
  // and it fires; nothing if it is silent; and a T1 if any of this fails, which is never silent.
  lemma RuleMeans(reg: Registry_, rule: CandidateRule, d: Dossier)
    ensures var usable := rule.templateId in reg && Instantiates(reg[rule.templateId], rule.params);
      && (usable && reg[rule.templateId].evaluate(d, rule.params).Fires?
          ==> RuleFindings(reg, rule, d) == [reg[rule.templateId].evaluate(d, rule.params).finding])
      && (usable && reg[rule.templateId].evaluate(d, rule.params).Silent? ==> RuleFindings(reg, rule, d) == [])
      && (!usable || reg[rule.templateId].evaluate(d, rule.params).Raises?
          ==> RuleFindings(reg, rule, d)
              == [Finding(LearnedRulesCheck, T1, Unexplainable, System, Some(RuleRuntimeError), "", [])])
  {
    hide ValidateParams, Instantiates;
    if rule.templateId in reg {
      FenceIsExact(reg[rule.templateId], rule.params);
    }
  }

  // The specification of check_learned_rules.
  function LearnedFindings(reg: Registry_, rules: seq<CandidateRule>, d: Dossier): seq<Finding> {
    if rules == [] then [] else RuleFindings(reg, rules[0], d) + LearnedFindings(reg, rules[1..], d)
  }

  method CheckLearnedRules(reg: Registry_, rules: seq<CandidateRule>, d: Dossier) returns (findings: seq<Finding>)
    ensures findings == LearnedFindings(reg, rules, d)
  {
    hide EvaluateRule, LearnedFindings;
    findings := [];
    NoMoreFindings(reg, d);
    for i := 0 to |rules|
      invariant findings == LearnedFindings(reg, rules[..i], d)
    {
      OneMoreRule(reg, rules, i, d);
      match EvaluateRule(reg, rules[i], d) {
        case Raises =>
          findings := findings + [BROKEN_RULE];
          continue;
        case Fires(f) => findings := findings + [f];
        case Silent =>
      }
    }
    assert rules[..|rules|] == rules;
  }

  lemma NoMoreFindings(reg: Registry_, d: Dossier)
    ensures LearnedFindings(reg, [], d) == []
  {}

  lemma OneMoreRule(reg: Registry_, rules: seq<CandidateRule>, i: nat, d: Dossier)
    requires i < |rules|
    ensures LearnedFindings(reg, rules[..i + 1], d)
      == LearnedFindings(reg, rules[..i], d) + RuleFindings(reg, rules[i], d)
  {
    hide EvaluateRule, RuleFindings;
    assert rules[..i + 1] == rules[..i] + [rules[i]];
    LearnedJoins(reg, rules[..i], [rules[i]], d);
    OneRule(reg, rules[i], d);
  }

  lemma OneRule(reg: Registry_, rule: CandidateRule, d: Dossier)
    ensures LearnedFindings(reg, [rule], d) == RuleFindings(reg, rule, d)
  {
    hide EvaluateRule, RuleFindings;
    assert [rule][1..] == [];
  }

  lemma {:induction false} LearnedJoins(reg: Registry_, a: seq<CandidateRule>, b: seq<CandidateRule>, d: Dossier)
    ensures LearnedFindings(reg, a + b, d) == LearnedFindings(reg, a, d) + LearnedFindings(reg, b, d)
  {
    hide EvaluateRule, RuleFindings;
    if a == [] {
      assert a + b == b;
    } else {
      assert (a + b)[1..] == a[1..] + b && (a + b)[0] == a[0];
      LearnedJoins(reg, a[1..], b, d);
      var (x, y, z) := (RuleFindings(reg, a[0], d), LearnedFindings(reg, a[1..], d), LearnedFindings(reg, b, d));
      assert x + (y + z) == x + y + z;
    }
  }

  // ----- the one registered template -----

  const CAPITAL_AGE_SPECS: map<Param, ParamSpec> := map[
    MaxAgeDays := ParamSpec(7.0, 1825.0, IntKind),
    MaxCapital := ParamSpec(10000.0, 1000000000.0, FloatKind)]

  function EvaluateCapitalAgeCeiling(d: Dossier, params: map<Param, real>): Evaluation {
    if d.registry.None? then Silent
    else
      var reg := d.registry.value;
      var ageDays := reg.date - reg.incorporation;
      if ageDays < 0 then Silent
      else if MaxAgeDays !in params || MaxCapital !in params then Raises
      else if ageDays as real > params[MaxAgeDays] || reg.capital <= params[MaxCapital] then Silent
      else Fires(CheckFinding(LearnedRulesCheck, F1, Explainable))
  }

  const CAPITAL_AGE_CEILING: Template := Template("capital_age_ceiling", CAPITAL_AGE_SPECS, EvaluateCapitalAgeCeiling)

  const REGISTRY: Registry_ := map["capital_age_ceiling" := CAPITAL_AGE_CEILING]

  // The one template fires an explainable F1 for a registry whose company is at most so many days old and
  // has more than so much capital, raises where it would need a parameter that is missing, and is silent
  // otherwise, in particular for a company founded after its registry was issued.
  lemma CeilingMeans(d: Dossier, params: map<Param, real>)
    ensures var young := d.registry.Some? && d.registry.value.incorporation <= d.registry.value.date;
      && (EvaluateCapitalAgeCeiling(d, params).Raises? <==> young && !({MaxAgeDays, MaxCapital} <= params.Keys))
      && (EvaluateCapitalAgeCeiling(d, params).Fires? <==>
            && young && {MaxAgeDays, MaxCapital} <= params.Keys
            && (d.registry.value.date - d.registry.value.incorporation) as real <= params[MaxAgeDays]
            && d.registry.value.capital > params[MaxCapital])
      && (EvaluateCapitalAgeCeiling(d, params).Fires?
          ==> EvaluateCapitalAgeCeiling(d, params).finding
              == Finding(LearnedRulesCheck, F1, Explainable, Deterministic, None, "", []))
  {}

  lemma RegisteredUnderItsId(id: string)
    requires id in REGISTRY
    ensures id == "capital_age_ceiling" && REGISTRY[id].id == id && REGISTRY[id].specs.Keys == {MaxAgeDays, MaxCapital}
    ensures forall d, params :: REGISTRY[id].evaluate(d, params) == EvaluateCapitalAgeCeiling(d, params)
  {}

  // ----- the validation gate -----

  datatype GateResult = GateResult(
    ruleId: string, templateId: string, passed: bool, paramErrors: set<ParamError>, regressions: seq<string>)

  // Evaluating a rule raises in the gate, and the exception leaves it.
  datatype GateOutcome = Report(result: GateResult) | GateRaised

  function Regressions(reg: Registry_, rule: CandidateRule, known: seq<(string, Dossier)>): Option<seq<string>> {
    if known == [] then Some([])
    else match EvaluateRule(reg, rule, known[0].1)
      case Raises => None
      case Silent => Regressions(reg, rule, known[1..])
      case Fires(_) =>
        match Regressions(reg, rule, known[1..])
        case None => None
        case Some(rest) => Some([known[0].0] + rest)
  }

  function Gate(reg: Registry_, rule: CandidateRule, known: seq<(string, Dossier)>): GateOutcome {
    if rule.templateId !in reg then Report(GateResult(rule.ruleId, rule.templateId, false, {}, []))
    else
      var errors := ValidateParams(reg[rule.templateId], rule.params);
      if errors != {} then Report(GateResult(rule.ruleId, rule.templateId, false, errors, []))
      else match Regressions(reg, rule, known)
        case None => GateRaised
        case Some(rs) => Report(GateResult(rule.ruleId, rule.templateId, rs == [], {}, rs))
  }

  function Prepended(found: seq<string>, rest: Option<seq<string>>): Option<seq<string>> {
    if rest.None? then None else Some(found + rest.value)
  }

  // run_validation_gate, without its informational preview
  method RunValidationGate(reg: Registry_, rule: CandidateRule, known: seq<(string, Dossier)>) returns (r: GateOutcome)
    ensures r == Gate(reg, rule, known)
  {
    if rule.templateId !in reg {
      return Report(GateResult(rule.ruleId, rule.templateId, false, {}, []));
    }
    var errors := ValidateParams(reg[rule.templateId], rule.params);
    if errors != {} {
      return Report(GateResult(rule.ruleId, rule.templateId, false, errors, []));
    }
    var regressions: seq<string> := [];
    assert known[0..] == known && forall rest: seq<string> :: [] + rest == rest;
    for i := 0 to |known|
      invariant Regressions(reg, rule, known) == Prepended(regressions, Regressions(reg, rule, known[i..]))
    {
      assert known[i..][1..] == known[i + 1..];
      match EvaluateRule(reg, rule, known[i].1) {
        case Raises => return GateRaised;
        case Fires(_) =>
          assert forall rest :: regressions + ([known[i].0] + rest) == regressions + [known[i].0] + rest;
          regressions := regressions + [known[i].0];
        case Silent =>
      }
    }
    return Report(GateResult(rule.ruleId, rule.templateId, regressions == [], {}, regressions));
  }

  ghost predicate Passes(reg: Registry_, rule: CandidateRule, known: seq<(string, Dossier)>) {
    Gate(reg, rule, known).Report? && Gate(reg, rule, known).result.passed
  }

  lemma {:induction false} NoRegressionsIffSilent(reg: Registry_, rule: CandidateRule, known: seq<(string, Dossier)>)
    ensures Regressions(reg, rule, known) == Some([])
      <==> forall i :: 0 <= i < |known| ==> EvaluateRule(reg, rule, known[i].1) == Silent
  {
    if known != [] {
      NoRegressionsIffSilent(reg, rule, known[1..]);
      assert forall i :: 0 < i < |known| ==> known[i] == known[1..][i - 1];
      if forall i :: 0 <= i < |known| ==> EvaluateRule(reg, rule, known[i].1) == Silent {
        assert EvaluateRule(reg, rule, known[0].1) == Silent;
        forall i | 0 <= i < |known[1..]| ensures EvaluateRule(reg, rule, known[1..][i].1) == Silent {
          assert known[1..][i] == known[i + 1];
        }
      }
    }
  }

  // A rule passes exactly when it is a valid instantiation that is silent on every known case.
  lemma PassesIffSilent(reg: Registry_, rule: CandidateRule, known: seq<(string, Dossier)>)
    ensures Passes(reg, rule, known) <==>
      && rule.templateId in reg && Instantiates(reg[rule.templateId], rule.params)
      && forall i :: 0 <= i < |known| ==> EvaluateRule(reg, rule, known[i].1) == Silent
  {
    NoRegressionsIffSilent(reg, rule, known);
    if rule.templateId in reg {
      FenceIsExact(reg[rule.templateId], rule.params);
    }
  }

  // Appending a passing rule to any rule list changes no finding on any gated dossier.
  lemma GateSoundness(reg: Registry_, rules: seq<CandidateRule>, rule: CandidateRule, known: seq<(string, Dossier)>,
        i: nat)
    requires Passes(reg, rule, known) && i < |known|
    ensures LearnedFindings(reg, rules + [rule], known[i].1) == LearnedFindings(reg, rules, known[i].1)
  {
    var d := known[i].1;
    PassesIffSilent(reg, rule, known);
    LearnedJoins(reg, rules, [rule], d);
    assert RuleFindings(reg, rule, d) == [];
    assert LearnedFindings(reg, [rule], d) == [];
  }

  // A stricter ceiling, younger or richer, passes wherever a laxer one did.
  lemma StricterCeilingPasses(rule: CandidateRule, stricter: CandidateRule, known: seq<(string, Dossier)>)
    requires rule.templateId == stricter.templateId == "capital_age_ceiling"
    requires Passes(REGISTRY, rule, known) && Instantiates(CAPITAL_AGE_CEILING, stricter.params)
    requires MaxAgeDays in rule.params && MaxCapital in rule.params
    requires stricter.params[MaxAgeDays] <= rule.params[MaxAgeDays]
    requires stricter.params[MaxCapital] >= rule.params[MaxCapital]
    ensures Passes(REGISTRY, stricter, known)
  {
    PassesIffSilent(REGISTRY, rule, known);
    PassesIffSilent(REGISTRY, stricter, known);
    FenceIsExact(CAPITAL_AGE_CEILING, rule.params);
    FenceIsExact(CAPITAL_AGE_CEILING, stricter.params);
    forall i | 0 <= i < |known| ensures EvaluateRule(REGISTRY, stricter, known[i].1) == Silent {
      assert EvaluateRule(REGISTRY, rule, known[i].1) == Silent;
    }
  }

  // ----- the promoted-rule store -----

  predicate MayPromote(existing: seq<CandidateRule>, rule: CandidateRule, approver: string, report: GateResult) {
    && Turkish.Strip(approver) != ""
    && report.ruleId == rule.ruleId && report.templateId == rule.templateId
    && report.passed
    && forall i :: 0 <= i < |existing| ==> existing[i].ruleId != rule.ruleId
  }

  ghost predicate DistinctIds(rules: seq<CandidateRule>) {
    forall i, k :: 0 <= i < k < |rules| ==> rules[i].ruleId != rules[k].ruleId
  }

  class RuleStore {
    var rules: seq<CandidateRule>

    constructor ()
      ensures rules == []
    {
      rules := [];
    }

    method Promote(rule: CandidateRule, approver: string, report: GateResult) returns (ok: bool)
      modifies this
      ensures ok <==> MayPromote(old(rules), rule, approver, report)
      ensures rules == if ok then old(rules) + [rule] else old(rules)
      ensures old(DistinctIds(rules)) ==> DistinctIds(rules)
    {
      ok := MayPromote(rules, rule, approver, report);
      if ok {
        rules := rules + [rule];
      }
    }
  }

  // One request to the store.
  datatype Promotion = Promotion(rule: CandidateRule, approver: string, report: GateResult)

  function AfterPromotion(existing: seq<CandidateRule>, p: Promotion): seq<CandidateRule> {
    if MayPromote(existing, p.rule, p.approver, p.report) then existing + [p.rule] else existing
  }

  function AfterPromotions(existing: seq<CandidateRule>, ps: seq<Promotion>): seq<CandidateRule>
    decreases |ps|
  {
    if ps == [] then existing else AfterPromotions(AfterPromotion(existing, ps[0]), ps[1..])
  }

  // Some request approved this rule on a passing report naming it.
  ghost predicate ApprovedBy(ps: seq<Promotion>, rule: CandidateRule) {
    exists p :: p in ps && p.rule == rule && Turkish.Strip(p.approver) != "" && p.report.passed
      && p.report.ruleId == rule.ruleId
  }

  lemma ApprovedEarlier(ps: seq<Promotion>, rule: CandidateRule)
    requires ps != [] && ApprovedBy(ps[1..], rule)
    ensures ApprovedBy(ps, rule)
  {
    var p :| p in ps[1..] && p.rule == rule && Turkish.Strip(p.approver) != "" && p.report.passed
      && p.report.ruleId == rule.ruleId;
    assert p in ps;
  }

  lemma PromotionKeepsIds(existing: seq<CandidateRule>, p: Promotion)
    requires DistinctIds(existing)
    ensures DistinctIds(AfterPromotion(existing, p))
  {}

  lemma PromotionIsApproved(existing: seq<CandidateRule>, ps: seq<Promotion>)
    requires ps != [] && AfterPromotion(existing, ps[0]) != existing
    ensures AfterPromotion(existing, ps[0]) == existing + [ps[0].rule] && ApprovedBy(ps, ps[0].rule)
  {
    assert ps[0] in ps;
  }

  // Over any run of requests the store only grows at the end, keeps its ids distinct, and every
  // rule it gained was approved on a passing report naming that rule.
  lemma {:induction false} StoreOverRuns(existing: seq<CandidateRule>, ps: seq<Promotion>)
    requires DistinctIds(existing)
    ensures var after := AfterPromotions(existing, ps);
      && existing <= after && DistinctIds(after)
      && forall i :: |existing| <= i < |after| ==> ApprovedBy(ps, after[i])
    decreases |ps|
  {
    hide AfterPromotion, DistinctIds, ApprovedBy;
    if ps != [] {
      var next := AfterPromotion(existing, ps[0]);
      PromotionKeepsIds(existing, ps[0]);
      StoreOverRuns(next, ps[1..]);
      var after := AfterPromotions(existing, ps);
      forall i | |existing| <= i < |after| ensures ApprovedBy(ps, after[i]) {
        if next != existing {
          PromotionIsApproved(existing, ps);
        }
        if i >= |next| {
          ApprovedEarlier(ps, after[i]);
        }
      }
      if next != existing {
        PromotionIsApproved(existing, ps);
      }
    }
  }
}
