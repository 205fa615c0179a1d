/** What the store is worth as a guard: it compares a report and a rule by their ids only, so a stored
    rule passes the gate if its report was made for its own parameters, and need not otherwise. */
module RulePromotion {
  import opened Contracts
  import opened Rules
  import Turkish

  // ----- reports made for the rule -----

  // The report is what the gate says of a rule with the parameters of the one to be promoted.
  ghost predicate ReportedOnParams(reg: Registry_, p: Promotion, known: seq<(string, Dossier)>) {
    exists r: CandidateRule :: r.params == p.rule.params && Gate(reg, r, known) == Report(p.report)
  }

  lemma ReportNamesItsRule(reg: Registry_, r: CandidateRule, known: seq<(string, Dossier)>)
    requires Gate(reg, r, known).Report?
    ensures Gate(reg, r, known).result.ruleId == r.ruleId && Gate(reg, r, known).result.templateId == r.templateId
  {}

  // With the ids compared by the store and the parameters by the caller, it is the same rule.
  lemma PromotedRulePasses(reg: Registry_, existing: seq<CandidateRule>, p: Promotion, known: seq<(string, Dossier)>)
    requires ReportedOnParams(reg, p, known) && MayPromote(existing, p.rule, p.approver, p.report)
    ensures Passes(reg, p.rule, known)
  {
    hide Gate;
    var r: CandidateRule :| r.params == p.rule.params && Gate(reg, r, known) == Report(p.report);
    ReportNamesItsRule(reg, r, known);
    assert r == p.rule;
  }

  ghost predicate AllPass(reg: Registry_, rules: seq<CandidateRule>, known: seq<(string, Dossier)>) {
    forall i :: 0 <= i < |rules| ==> Passes(reg, rules[i], known)
  }

  // Over any run of requests whose reports were made for the parameters promoted, every stored
  // rule passes the gate.
  lemma {:induction false} ReportedStorePasses(reg: Registry_, existing: seq<CandidateRule>, ps: seq<Promotion>,
        known: seq<(string, Dossier)>)
    requires AllPass(reg, existing, known)
    requires forall i :: 0 <= i < |ps| ==> ReportedOnParams(reg, ps[i], known)
    ensures AllPass(reg, AfterPromotions(existing, ps), known)
    decreases |ps|
  {
    hide Passes, ReportedOnParams, MayPromote;
    if ps != [] {
      if MayPromote(existing, ps[0].rule, ps[0].approver, ps[0].report) {
        PromotedRulePasses(reg, existing, ps[0], known);
      }
      ReportedStorePasses(reg, AfterPromotion(existing, ps[0]), ps[1..], known);
    }
  }

  // Passing rules find nothing on a dossier they were gated on.
  lemma {:induction false} PassingRulesFindNothing(reg: Registry_, rules: seq<CandidateRule>,
        known: seq<(string, Dossier)>, i: nat)
    requires AllPass(reg, rules, known) && i < |known|
    ensures LearnedFindings(reg, rules, known[i].1) == []
  {
    hide Passes, EvaluateRule;
    if rules != [] {
      var n := |rules| - 1;
      PassingRulesFindNothing(reg, rules[..n], known, i);
      assert rules == rules[..n] + [rules[n]];
      GateSoundness(reg, rules[..n], rules[n], known, i);
    }
  }

  // A store filled by such requests is silent on every gated dossier.
  lemma ReportedStoreIsSilent(reg: Registry_, ps: seq<Promotion>, known: seq<(string, Dossier)>, i: nat)
    requires i < |known| && forall k :: 0 <= k < |ps| ==> ReportedOnParams(reg, ps[k], known)
    ensures LearnedFindings(reg, AfterPromotions([], ps), known[i].1) == []
  {
    hide ReportedOnParams, Passes;
    ReportedStorePasses(reg, [], ps, known);
    PassingRulesFindNothing(reg, AfterPromotions([], ps), known, i);
  }

  // ----- the shipped template -----

  // A known registry the rule would fire on.
  predicate Hits(params: map<Param, real>, d: Dossier)
    requires MaxAgeDays in params && MaxCapital in params
  {
    && d.registry.Some?
    && 0 <= d.registry.value.date - d.registry.value.incorporation
    && (d.registry.value.date - d.registry.value.incorporation) as real <= params[MaxAgeDays]
    && d.registry.value.capital > params[MaxCapital]
  }

  predicate InBounds(params: map<Param, real>) {
    && params.Keys == {MaxAgeDays, MaxCapital}
    && 7.0 <= params[MaxAgeDays] <= 1825.0 && IsInteger(params[MaxAgeDays])
    && 10000.0 <= params[MaxCapital] <= 1000000000.0
  }

  lemma InBoundsInstantiates(params: map<Param, real>)
    ensures InBounds(params) <==> Instantiates(CAPITAL_AGE_CEILING, params)
  {
    assert CAPITAL_AGE_SPECS.Keys == {MaxAgeDays, MaxCapital};
    if Instantiates(CAPITAL_AGE_CEILING, params) {
      assert MaxAgeDays in CAPITAL_AGE_CEILING.specs && MaxCapital in CAPITAL_AGE_CEILING.specs;
    }
  }

  lemma SilentUnlessHit(rule: CandidateRule, d: Dossier)
    requires rule.templateId == "capital_age_ceiling" && InBounds(rule.params)
    ensures EvaluateRule(REGISTRY, rule, d) == Silent <==> !Hits(rule.params, d)
  {
    InBoundsInstantiates(rule.params);
    FenceIsExact(CAPITAL_AGE_CEILING, rule.params);
  }

  // A rule of the shipped template passes exactly when its parameters are in bounds and no known
  // registry is that young and that rich. The store admits it on any passing report with its ids.
  lemma CeilingPassesIff(rule: CandidateRule, known: seq<(string, Dossier)>)
    requires rule.templateId == "capital_age_ceiling"
    ensures Passes(REGISTRY, rule, known)
      <==> InBounds(rule.params) && forall i :: 0 <= i < |known| ==> !Hits(rule.params, known[i].1)
  {
    hide Passes, Instantiates, EvaluateRule;
    PassesIffSilent(REGISTRY, rule, known);
    InBoundsInstantiates(rule.params);
    if InBounds(rule.params) {
      forall i | 0 <= i < |known|
        ensures EvaluateRule(REGISTRY, rule, known[i].1) == Silent <==> !Hits(rule.params, known[i].1)
      {
        SilentUnlessHit(rule, known[i].1);
      }
    }
  }

  // ----- reports made for another rule -----

  const STRICT_PARAMS: map<Param, real> := map[MaxAgeDays := 7.0, MaxCapital := 1000000000.0]
  const LAX_PARAMS: map<Param, real> := map[MaxAgeDays := 1825.0, MaxCapital := 10000.0]

  // A company of a hundred days with a capital of a million.
  function YoungAndRich(): Dossier {
    Dossier("", Some(Registry(100, "", "", 0, 1000000.0, [])), None, None)
  }

  // A report on a strict rule admits a lax one of the same ids, which the gate would have refused.
  lemma StoreTrustsIdsOnly(id: string, approver: string)
    requires Turkish.Strip(approver) != ""
    ensures var known := [("young", YoungAndRich())];
      var (strict, lax) :=
        (CandidateRule(id, "capital_age_ceiling", STRICT_PARAMS), CandidateRule(id, "capital_age_ceiling", LAX_PARAMS));
      && Passes(REGISTRY, strict, known) && !Passes(REGISTRY, lax, known)
      && MayPromote([], lax, approver, Gate(REGISTRY, strict, known).result)
      && LearnedFindings(REGISTRY, AfterPromotion([], Promotion(lax, approver, Gate(REGISTRY, strict, known).result)),
          YoungAndRich()) != []
  {
    hide Gate, LearnedFindings;
    var known := [("young", YoungAndRich())];
    var strict, lax := CandidateRule(id, "capital_age_ceiling", STRICT_PARAMS),
      CandidateRule(id, "capital_age_ceiling", LAX_PARAMS);
    CeilingPassesIff(strict, known);
    CeilingPassesIff(lax, known);
    assert Hits(LAX_PARAMS, known[0].1) && InBounds(LAX_PARAMS) && InBounds(STRICT_PARAMS);
    ReportNamesItsRule(REGISTRY, strict, known);
    SilentUnlessHit(lax, YoungAndRich());
    assert [] + [lax] == [lax];
    OneRule(REGISTRY, lax, YoungAndRich());
  }
}
