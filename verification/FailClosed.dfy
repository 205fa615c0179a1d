/** What holds of every run of the screening graph, for every dossier, rule list and model
    behaviour. */
module FailClosed {
  import opened Contracts
  import opened Guardrail
  import opened Graph
  import Checks
  import Rules
  import RulePromotion
  import Turkish

  predicate HasSystem(fs: seq<Finding>) {
    HasOrigin(fs, System)
  }

  // What construction guarantees of a finding, and what each layer makes of it: system
  // findings are unexplainable, triage findings are never informational and carry X1 or X2.
  ghost predicate Sound(f: Finding) {
    && Lawful(f)
    && (f.origin == System ==> f.severity == Unexplainable)
    && (f.origin == AiTriage ==> f.severity != Info && f.code in {X1, X2})
  }

  ghost predicate AllSound(fs: seq<Finding>) {
    forall i :: 0 <= i < |fs| ==> Sound(fs[i])
  }

  // A vetted template fires domain findings only.
  ghost predicate Vetted(reg: Rules.Registry_) {
    forall id, d, params :: id in reg ==>
      var e := reg[id].evaluate(d, params);
      e.Fires? ==> Lawful(e.finding) && e.finding.origin == Deterministic
  }

  lemma ShippedRegistryIsVetted()
    ensures Vetted(Rules.REGISTRY)
  {}

  lemma SoundJoins(a: seq<Finding>, b: seq<Finding>)
    requires AllSound(a) && AllSound(b)
    ensures AllSound(a + b)
  {}

  lemma {:induction false} UboFindingsAreSound(m: EntityMap, holders: seq<Holder>, declared: seq<Holder>)
    ensures AllSound(Checks.UndeclaredFindings(m, holders, declared))
  {
    if holders != [] {
      UboFindingsAreSound(m, holders[1..], declared);
    }
  }

  lemma {:induction false} LearnedFindingsAreSound(reg: Rules.Registry_, rules: seq<Rules.CandidateRule>, d: Dossier)
    requires Vetted(reg)
    ensures AllSound(Rules.LearnedFindings(reg, rules, d))
  {
    if rules != [] {
      LearnedFindingsAreSound(reg, rules[1..], d);
      SoundJoins(Rules.RuleFindings(reg, rules[0], d), Rules.LearnedFindings(reg, rules[1..], d));
    }
  }

  lemma PresenceIsSound(d: Dossier)
    ensures AllSound(Checks.Missing(d.registry) + Checks.Missing(d.circular) + Checks.Missing(d.ubo))
  {
    SoundJoins(Checks.Missing(d.registry), Checks.Missing(d.circular));
    SoundJoins(Checks.Missing(d.registry) + Checks.Missing(d.circular), Checks.Missing(d.ubo));
  }

  lemma FlagsAreSound(p: bool, q: bool, r: bool)
    ensures AllSound(Checks.FlagEmpty(p) + Checks.FlagEmpty(q) + Checks.FlagEmpty(r))
    ensures AllSound(Checks.FlagEmpty(p) + Checks.FlagEmpty(q))
  {
    SoundJoins(Checks.FlagEmpty(p), Checks.FlagEmpty(q));
    SoundJoins(Checks.FlagEmpty(p) + Checks.FlagEmpty(q), Checks.FlagEmpty(r));
  }

  lemma EmptyFieldsAreSound(d: Dossier)
    ensures AllSound(Checks.EmptyRegistryFields(d.registry))
    ensures AllSound(Checks.EmptyCircularFields(d.circular))
    ensures AllSound(Checks.EmptyUboFields(d.ubo))
  {
    if d.registry.Some? {
      var r := d.registry.value;
      FlagsAreSound(Checks.Filled(r.taxId), Checks.Filled(r.legalName), r.shareholders != []);
    }
    if d.circular.Some? {
      FlagsAreSound(Checks.Filled(d.circular.value.taxId), d.circular.value.signatories != [], true);
    }
    if d.ubo.Some? {
      FlagsAreSound(Checks.Filled(d.ubo.value.taxId), Checks.Filled(d.ubo.value.declarant), true);
    }
  }

  lemma CompletenessIsSound(d: Dossier)
    ensures AllSound(Checks.CheckCompleteness(d))
  {
    var present := Checks.Missing(d.registry) + Checks.Missing(d.circular) + Checks.Missing(d.ubo);
    var fields := present + Checks.EmptyRegistryFields(d.registry);
    PresenceIsSound(d);
    EmptyFieldsAreSound(d);
    SoundJoins(present, Checks.EmptyRegistryFields(d.registry));
    SoundJoins(fields, Checks.EmptyCircularFields(d.circular));
    SoundJoins(fields + Checks.EmptyCircularFields(d.circular), Checks.EmptyUboFields(d.ubo));
  }

  lemma IdentityIsSound(d: Dossier, m: EntityMap)
    ensures AllSound(Checks.CheckIdentity(d, m))
  {}

  lemma OwnershipIsSound(registry: Registry, ubo: Ubo, m: EntityMap)
    ensures AllSound(Checks.CheckOwnership(registry, ubo, m))
  {
    hide Checks.DeltaOf;
  }

  lemma AuthorityIsSound(circular: Circular, ubo: Ubo, m: EntityMap)
    ensures AllSound(Checks.CheckAuthority(circular, ubo, m))
  {}

  lemma UboIsSound(ubo: Ubo, m: EntityMap)
    ensures AllSound(Checks.CheckUbo(ubo, m))
  {
    UboFindingsAreSound(m, ubo.shareholders, ubo.declared);
  }

  lemma NodeFindingsAreSound(node: Node, d: Dossier, c: Config)
    requires Vetted(c.registry)
    ensures AllSound(NodeFindings(node, d, c))
  {
    hide Vetted, Checks.CheckIdentity, Checks.CheckOwnership, Checks.CheckAuthority, Checks.CheckUbo,
      Checks.CheckCompleteness,
      Rules.LearnedFindings;
    if CanRun(node, d) {
      match node
      case IdentityCheck => IdentityIsSound(d, c.emap);
      case OwnershipCheck => OwnershipIsSound(d.registry.value, d.ubo.value, c.emap);
      case AuthorityCheck => AuthorityIsSound(d.circular.value, d.ubo.value, c.emap);
      case UboCheck => UboIsSound(d.ubo.value, c.emap);
      case CompletenessCheck => CompletenessIsSound(d);
      case LearnedRulesCheck => LearnedFindingsAreSound(c.registry, c.rules, d);
      case _ =>
    }
  }

  lemma {:induction false} CheckFindingsAreSound(nodes: seq<Node>, d: Dossier, c: Config)
    requires Vetted(c.registry)
    ensures AllSound(AllFindings(nodes, d, c))
  {
    if nodes != [] {
      NodeFindingsAreSound(nodes[0], d, c);
      CheckFindingsAreSound(nodes[1..], d, c);
      SoundJoins(NodeFindings(nodes[0], d, c), AllFindings(nodes[1..], d, c));
    }
  }

  lemma BaseIsSound(d: Dossier, c: Config)
    requires Vetted(c.registry)
    ensures AllSound(BaseFindings(d, c))
  {
    hide Vetted, AllSound;
    CheckFindingsAreSound(CHECK_NODES, d, c);
  }

  lemma ContributionsAreSound(triage: Outcome<TriageResult>, synthesis: Outcome<Proposal>)
    ensures AllSound(TriageContribution(triage)) && AllSound(SynthesisContribution(synthesis))
  {}

  // Every finding of every run is one the contract admits, and every system finding escalates.
  lemma RunFindingsAreSound(d: Dossier, c: Config, triage: Outcome<TriageResult>, synthesis: Outcome<Proposal>)
    requires Vetted(c.registry)
    ensures AllSound(Screen(d, c, triage, synthesis).findings)
  {
    hide Screen, Vetted, BaseFindings, TriageContribution, SynthesisContribution, AllSound;
    FindingsAreAccountedFor(d, c, triage, synthesis);
    BaseIsSound(d, c);
    ContributionsAreSound(triage, synthesis);
    SoundJoins(BaseFindings(d, c), TriageContribution(triage));
    SoundJoins(BaseFindings(d, c) + TriageContribution(triage), SynthesisContribution(synthesis));
  }

  lemma SystemEscalates(fs: seq<Finding>)
    requires AllSound(fs) && HasSystem(fs)
    ensures Decide(fs) == Escalate
  {
    var i :| 0 <= i < |fs| && fs[i].origin == System;
    assert Sound(fs[i]);
  }

  // A run with any system finding can never finalize to anything but escalate.
  lemma SystemForcesEscalate(d: Dossier, c: Config, triage: Outcome<TriageResult>, synthesis: Outcome<Proposal>)
    requires Vetted(c.registry)
    ensures HasSystem(Screen(d, c, triage, synthesis).findings) ==> Screen(d, c, triage, synthesis).decision == Escalate
  {
    var r := Screen(d, c, triage, synthesis);
    RunFindingsAreSound(d, c, triage, synthesis);
    FindingsAreAccountedFor(d, c, triage, synthesis);
    if HasSystem(r.findings) {
      SystemEscalates(r.findings);
    }
  }

  // A call without a usable answer leaves a system finding behind, hence escalates.
  lemma FailedCallsEscalate(d: Dossier, c: Config, triage: Outcome<TriageResult>, synthesis: Outcome<Proposal>)
    requires !triage.Returned? || !synthesis.Returned? || synthesis.value.Unavailable?
    ensures HasSystem(Screen(d, c, triage, synthesis).findings)
    ensures Screen(d, c, triage, synthesis).decision == Escalate
  {
    var fs := Screen(d, c, triage, synthesis).findings;
    FindingsAreAccountedFor(d, c, triage, synthesis);
    var base, t, s := BaseFindings(d, c), TriageContribution(triage), SynthesisContribution(synthesis);
    if !triage.Returned? {
      assert fs[|base|] == t[0];
    } else {
      assert fs[|base| + |t|] == s[0];
    }
  }

  // Conversely, with two usable answers the only possible system findings are broken rules.
  lemma UsableAnswersAddNoSystem(d: Dossier, c: Config, triage: TriageResult, proposal: Proposal)
    requires proposal.Available?
    ensures HasSystem(Screen(d, c, Returned(triage), Returned(proposal)).findings) <==> HasSystem(BaseFindings(d, c))
  {
    FindingsAreAccountedFor(d, c, Returned(triage), Returned(proposal));
    var base, t := BaseFindings(d, c), TriageFindings(triage);
    var fs := base + t + [];
    if i :| 0 <= i < |base| && base[i].origin == System { assert fs[i].origin == System; }
    if i :| 0 <= i < |fs| && fs[i].origin == System { assert i < |base|; }
  }

  // With two usable answers: what each decision means for the check findings and the words of the
  // concerns.
  lemma UsableAnswersDecide(d: Dossier, c: Config, triage: TriageResult, proposal: Proposal)
    requires proposal.Available?
    ensures var (r, base) := (Screen(d, c, Returned(triage), Returned(proposal)), BaseFindings(d, c));
      && (r.decision == Escalate <==>
            || Has(base, Unexplainable)
            || exists i :: 0 <= i < |triage.concerns|
                 && Turkish.Lower(Turkish.Strip(triage.concerns[i].severity)) == "unexplainable")
      && (r.decision == Approve
          <==> triage.concerns == [] && forall i :: 0 <= i < |base| ==> base[i].severity == Info)
  {
    hide Screen, BaseFindings, Turkish.Lower, Turkish.Strip, Decide, Has, TriageFindings;
    FindingsAreAccountedFor(d, c, Returned(triage), Returned(proposal));
    var base, t := BaseFindings(d, c), TriageFindings(triage);
    assert base + t + [] == base + t;
    HasJoins(base, t, Unexplainable);
    ConcernsSay(triage);
    DecisionMeans(base + t);
    NoneButInfo(base, t);
  }

  lemma ConcernsSay(r: TriageResult)
    ensures Has(TriageFindings(r), Unexplainable) <==>
      exists i :: 0 <= i < |r.concerns| && Turkish.Lower(Turkish.Strip(r.concerns[i].severity)) == "unexplainable"
    ensures |TriageFindings(r)| == |r.concerns|
    ensures forall i :: 0 <= i < |r.concerns| ==> TriageFindings(r)[i].severity != Info
  {
    hide Turkish.Lower, Turkish.Strip;
    var t := TriageFindings(r);
    if i :| 0 <= i < |r.concerns| && Turkish.Lower(Turkish.Strip(r.concerns[i].severity)) == "unexplainable" {
      ConcernsAreClamped(r, i);
      assert t[i].severity == Unexplainable;
    }
    if i :| 0 <= i < |t| && t[i].severity == Unexplainable {
      ConcernsAreClamped(r, i);
      assert Turkish.Lower(Turkish.Strip(r.concerns[i].severity)) == "unexplainable";
    }
  }

  lemma NoneButInfo(a: seq<Finding>, b: seq<Finding>)
    requires forall i :: 0 <= i < |b| ==> b[i].severity != Info
    ensures (forall i :: 0 <= i < |a + b| ==> (a + b)[i].severity == Info)
      <==> b == [] && forall i :: 0 <= i < |a| ==> a[i].severity == Info
  {
    if forall i :: 0 <= i < |a + b| ==> (a + b)[i].severity == Info {
      forall i | 0 <= i < |a| ensures a[i].severity == Info { assert (a + b)[i] == a[i]; }
    }
    if b != [] { assert (a + b)[|a|] == b[0]; }
  }

  lemma DecisionMeans(fs: seq<Finding>)
    ensures Decide(fs) == Escalate <==> Has(fs, Unexplainable)
    ensures Decide(fs) == Approve <==> forall i :: 0 <= i < |fs| ==> fs[i].severity == Info
  {
    if Decide(fs) == Approve {
      forall i | 0 <= i < |fs| ensures fs[i].severity == Info {
        assert fs[i].severity == Explainable ==> Has(fs, Explainable);
        assert fs[i].severity == Unexplainable ==> Has(fs, Unexplainable);
      }
    }
  }

  // Whatever the triage call does, it never lowers the decision of the run without concerns.
  lemma TriageNeverLowers(d: Dossier, c: Config, triage: Outcome<TriageResult>, synthesis: Outcome<Proposal>)
    ensures Rank(Screen(d, c, triage, synthesis).decision)
         >= Rank(Screen(d, c, Returned(TriageResult([])), synthesis).decision)
  {
    FindingsAreAccountedFor(d, c, triage, synthesis);
    FindingsAreAccountedFor(d, c, Returned(TriageResult([])), synthesis);
    var base, t, s := BaseFindings(d, c), TriageContribution(triage), SynthesisContribution(synthesis);
    assert base + [] + s == base + s;
    DecideJoins(base + t, s);
    DecideJoins(base, t);
    DecideJoins(base, s);
  }

  // What an available proposal says cannot influence the decision, the findings or the actions.
  lemma ProposalContentIsIrrelevant(d: Dossier, c: Config, triage: Outcome<TriageResult>, p: Proposal, q: Proposal)
    requires p.Available? && q.Available?
    ensures var (r, s) := (Screen(d, c, triage, Returned(p)), Screen(d, c, triage, Returned(q)));
      r.decision == s.decision && r.findings == s.findings && r.record == s.record
  {
    FindingsAreAccountedFor(d, c, triage, Returned(p));
    FindingsAreAccountedFor(d, c, triage, Returned(q));
  }

  // The stored record carries the final decision, and says escalated exactly when some finding of
  // the run is unexplainable.
  lemma RecordAgrees(d: Dossier, c: Config, triage: Outcome<TriageResult>, synthesis: Outcome<Proposal>)
    ensures var r := Screen(d, c, triage, synthesis);
      && r.record.decision == r.decision
      && (r.record.escalated
          <==> Has(BaseFindings(d, c) + TriageContribution(triage) + SynthesisContribution(synthesis), Unexplainable))
  {
    FindingsAreAccountedFor(d, c, triage, synthesis);
  }

  // What the guardrail reports: whether there was a proposal, whether the decision differs from it, and
  // the actions, which open a case unless the decision is to approve and escalate it if it says so.
  lemma GuardrailSays(d: Dossier, c: Config, triage: Outcome<TriageResult>, synthesis: Outcome<Proposal>)
    ensures var r := Screen(d, c, triage, synthesis);
      && (r.proposal.Available? <==> synthesis.Returned? && synthesis.value.Available?)
      && (r.proposal.Available? ==> r.proposal == synthesis.value)
      && (r.guardrail.mode == FailClosedNoProposal <==> r.proposal.Unavailable?)
      && (r.guardrail.overridden <==> r.proposal.Available? && r.proposal.decision != r.decision)
      && r.guardrail.decision == r.decision && r.record.actions == r.guardrail.actions
      && r.guardrail.actions
         == (if r.decision != Approve then [OpenCase] else []) + (if r.decision == Escalate then [EscalateCase] else [])
      && r.triage == if triage.Returned? then Some(triage.value) else None
  {
    hide RunChecks, Decide;
    NothingAskedYet(d, c);
  }

  lemma NothingAskedYet(d: Dossier, c: Config)
    ensures RunChecks(d, c).triage == None
  {
    Bookkeeping(Visited(Visited(INITIAL, Extract), ResolveEntities), CHECK_NODES, d, c);
  }

  function KindOf<T>(o: Outcome<T>): ErrorKind {
    if o.RaisedLLMError? then o.kind else UnexpectedException
  }

  function T0Finding(node: Node, kind: ErrorKind): Finding {
    Finding(node, T0, Unexplainable, System, Some(kind), "", [])
  }

  predicate At(fs: seq<Finding>, i: int, f: Finding) {
    0 <= i < |fs| && fs[i] == f
  }

  // The findings of a run are those of the checks, one per concern or a T0 that names the failed triage
  // call and how it failed, and then a T0 for a synthesis call without a usable answer.
  lemma FailedCallsAreNamed(d: Dossier, c: Config, triage: Outcome<TriageResult>, synthesis: Outcome<Proposal>)
    ensures var (r, base) := (Screen(d, c, triage, synthesis), BaseFindings(d, c));
      && (!triage.Returned? ==> At(r.findings, |base|, T0Finding(TriageNode, KindOf(triage))))
      && (!synthesis.Returned? ==> At(r.findings, |r.findings| - 1, T0Finding(SynthesisNode, KindOf(synthesis))))
      && (synthesis.Returned? && synthesis.value.Unavailable?
          ==> At(r.findings, |r.findings| - 1, T0Finding(SynthesisNode, SchemaInvalid)))
      && |r.findings| == |base| + (if triage.Returned? then |triage.value.concerns| else 1)
           + (if synthesis.Returned? && synthesis.value.Available? then 0 else 1)
  {
    hide Screen, BaseFindings;
    FindingsAreAccountedFor(d, c, triage, synthesis);
  }

  // A passing rule changes nothing about a run over a gated dossier.
  lemma GatedRuleChangesNothing(d: Dossier, c: Config, rule: Rules.CandidateRule, known: seq<(string, Dossier)>, i: nat,
        triage: Outcome<TriageResult>, synthesis: Outcome<Proposal>)
    requires Rules.Passes(c.registry, rule, known) && i < |known| && known[i].1 == d
    ensures var (r, s) :=
      (Screen(d, c, triage, synthesis), Screen(d, c.(rules := c.rules + [rule]), triage, synthesis));
      r.findings == s.findings && r.decision == s.decision
  {
    var c' := c.(rules := c.rules + [rule]);
    FindingsAreAccountedFor(d, c, triage, synthesis);
    FindingsAreAccountedFor(d, c', triage, synthesis);
    Rules.GateSoundness(c.registry, c.rules, rule, known, i);
    SameFindings(CHECK_NODES, d, c, c');
  }

  // A list of passing rules changes nothing about it either, against no rules at all.
  lemma {:induction false} GatedRulesChangeNothing(d: Dossier, c: Config, rules: seq<Rules.CandidateRule>,
        known: seq<(string, Dossier)>, i: nat, triage: Outcome<TriageResult>, synthesis: Outcome<Proposal>)
    requires RulePromotion.AllPass(c.registry, rules, known) && i < |known| && known[i].1 == d
    ensures var (r, s) :=
      (Screen(d, c.(rules := []), triage, synthesis), Screen(d, c.(rules := rules), triage, synthesis));
      r.findings == s.findings && r.decision == s.decision
    decreases |rules|
  {
    hide Screen, Rules.Passes;
    if rules != [] {
      var n := |rules| - 1;
      GatedRulesChangeNothing(d, c, rules[..n], known, i, triage, synthesis);
      GatedRuleChangesNothing(d, c.(rules := rules[..n]), rules[n], known, i, triage, synthesis);
      assert rules == rules[..n] + [rules[n]];
    }
  }

  lemma {:induction false} SameFindings(nodes: seq<Node>, d: Dossier, c: Config, c': Config)
    requires c.emap == c'.emap
    requires Rules.LearnedFindings(c.registry, c.rules, d) == Rules.LearnedFindings(c'.registry, c'.rules, d)
    ensures AllFindings(nodes, d, c) == AllFindings(nodes, d, c')
  {
    if nodes != [] {
      SameFindings(nodes[1..], d, c, c');
      assert NodeFindings(nodes[0], d, c) == NodeFindings(nodes[0], d, c');
    }
  }
}
