/** The A1 injector against the real name matchers: three spellings of one company and
    degraded spellings of its people are found as A1 and as nothing else, whatever the fuzzy
    scores are. */
module SpellingIsolation {
  import opened Contracts
  import opened Graph
  import opened Checks
  import opened Generator
  import opened Isolation
  import opened SpellingVariants
  import SuffixRewriting
  import Turkish

  // The entity map as resolve_entities builds it, over arbitrary fuzzy scores.
  function Matchers(person: (string, string) -> real, legal: (string, string) -> real): EntityMap {
    EntityMap((a, b) => Turkish.PersonNamesMatch(a, b, person), (a, b) => Turkish.LegalNamesMatch(a, b, legal))
  }

  lemma MatchersAreReflexive(person: (string, string) -> real, legal: (string, string) -> real)
    ensures Reflexive(Matchers(person, legal))
  {}

  // ----- recovering the legal form -----

  // Two texts that differ k characters from their ends differ.
  lemma DifferFromEnd(a: string, x: string, b: string, y: string, k: nat)
    requires k < |x| && k < |y| && x[|x| - 1 - k] != y[|y| - 1 - k]
    ensures a + x != b + y && !EndsWith(a + x, y)
  {
    assert (a + x)[|a + x| - 1 - k] == x[|x| - 1 - k];
    assert (b + y)[|b + y| - 1 - k] == y[|y| - 1 - k];
    assert |y| <= |a + x| ==> (a + x)[|a + x| - |y|..][|y| - 1 - k] == x[|x| - 1 - k];
  }

  lemma FullFormsDiffer(i: nat, form: nat) returns (k: nat)
    requires i < form < 4
    ensures var x, y := LEGAL_SUFFIXES[form].0, LEGAL_SUFFIXES[i].0;
      k < |x| && k < |y| && x[|x| - 1 - k] != y[|y| - 1 - k]
  {
    k := if form == 3 && i == 1 then 9 else if form == 2 && i == 0 then 1 else 0;
  }

  lemma CapsFormsDiffer(form: nat) returns (k: nat)
    requires form < 4
    ensures var x, y := LEGAL_SUFFIXES[form].0, LEGAL_SUFFIXES[form].1;
      k < |x| && k < |y| && x[|x| - 1 - k] != y[|y| - 1 - k]
  {
    k := if form == 0 then 1 else if form == 2 then 5 else 0;
  }

  lemma EndsWithItsTail(head: string, tail: string)
    ensures EndsWith(head + tail, tail)
  {}

  lemma FourForms()
    ensures |LEGAL_SUFFIXES| == 4
  {}

  lemma LegalNameIs(head: string, form: nat)
    requires form < |LEGAL_SUFFIXES|
    ensures LegalName(head, form) == head + " " + LEGAL_SUFFIXES[form].0
  {
    hide LEGAL_SUFFIXES;
  }

  lemma FormEnds(head: string, form: nat, i: nat)
    requires i <= form < 4
    ensures EndsWith(LegalName(head, form), LEGAL_SUFFIXES[i].0) <==> i == form
  {
    hide *;
    FourForms();
    LegalNameIs(head, form);
    var full := LEGAL_SUFFIXES[form].0;
    EndsWithItsTail(head + " ", full);
    if i < form {
      var k := FullFormsDiffer(i, form);
      DifferFromEnd(head + " ", full, "", LEGAL_SUFFIXES[i].0, k);
    }
  }

  lemma {:induction false} FormIsFound(head: string, form: nat, i: nat)
    requires i <= form < 4
    ensures FormFrom(LegalName(head, form), i) == Some(form)
    decreases form - i
  {
    hide LegalName, EndsWith;
    FormEnds(head, form, i);
    if i < form {
      FormIsFound(head, form, i + 1);
    }
  }

  predicate Trimmed(t: string) {
    Turkish.Strip(t) == t
  }

  lemma RespelledPlan(p: Plan, head: string, form: nat)
    requires form < 4 && p.legalReg == LegalName(head, form) && Trimmed(head)
    ensures RespellLegal(p) == p.(
      legalCirc := TrUpper(head) + " " + LEGAL_SUFFIXES[form].1,
      legalUbo := AsciiDegrade(head) + " " + LEGAL_SUFFIXES[form].2)
  {
    var full := LEGAL_SUFFIXES[form].0;
    FormIsFound(head, form, 0);
    assert p.legalReg[..|p.legalReg| - |full|] == head + " ";
    assert (head + " ")[..|head|] == head;
  }

  // ----- degraded names -----

  lemma {:induction false} SpacesStrip(t: string)
    requires forall i :: 0 <= i < |t| ==> SuffixRewriting.IsSpace(t[i])
    ensures Turkish.StripRight(t) == ""
  {
    if t != "" {
      SpacesStrip(t[..|t| - 1]);
    }
  }

  lemma {:induction false} InkRemains(t: string, i: nat)
    requires i < |t| && !SuffixRewriting.IsSpace(t[i])
    ensures i < |Turkish.StripRight(t)| && Turkish.StripRight(t)[i] == t[i]
  {
    if i < |t| - 1 && SuffixRewriting.IsSpace(t[|t| - 1]) {
      InkRemains(t[..|t| - 1], i);
    }
  }

  lemma DegradedIsFilled(t: string)
    requires Filled(t)
    ensures Filled(AsciiDegrade(t))
  {
    if forall i :: 0 <= i < |t| ==> SuffixRewriting.IsSpace(t[i]) {
      SpacesStrip(t);
    } else {
      var i :| 0 <= i < |t| && !SuffixRewriting.IsSpace(t[i]);
      var u := AsciiDegrade(t);
      assert !SuffixRewriting.IsSpace(u[i]);
      InkRemains(u, i);
      LeftKeepsInk(Turkish.StripRight(u), i);
    }
  }

  lemma {:induction false} DegradeDeclared(owners: seq<Holder>)
    ensures Declared(Degrade(owners)) == Degrade(Declared(owners))
    ensures Total(Degrade(owners)) == Total(owners)
  {
    if owners != [] {
      DegradeDeclared(owners[1..]);
      assert Degrade(owners)[1..] == Degrade(owners[1..]);
      assert Declared(owners)
        == (if owners[0].pct + 0.001 >= UBO_THRESHOLD_PCT then [owners[0]] else []) + Declared(owners[1..]);
    }
  }

  ghost predicate PlainNames(owners: seq<Holder>) {
    forall i :: 0 <= i < |owners| ==> Plain(owners[i].name)
  }

  lemma DegradedOwnersAlign(m: EntityMap, owners: seq<Holder>, person: (string, string) -> real,
        legal: (string, string) -> real)
    requires m == Matchers(person, legal) && PlainNames(owners)
    ensures Aligned(m, owners, Degrade(owners)) && SamePcts(owners, Degrade(owners))
  {
    forall i | 0 <= i < |owners| ensures m.samePerson(owners[i].name, Degrade(owners)[i].name) {
      KeyIgnoresDegrading(owners[i].name);
    }
  }

  // ----- the injector -----

  lemma ThreeSpellings(d: Dossier, c: Config)
    requires d.registry.Some? && d.circular.Some? && d.ubo.Some? && AllEqual(TaxIds(d))
    requires d.circular.value.legalName != d.registry.value.legalName
    requires c.emap.sameLegal(d.registry.value.legalName, d.registry.value.legalName)
    requires c.emap.sameLegal(d.registry.value.legalName, d.circular.value.legalName)
    requires c.emap.sameLegal(d.registry.value.legalName, d.ubo.value.legalName)
    ensures NodeFindings(IdentityCheck, d, c) == [CheckFinding(IdentityCheck, A1, Info)]
  {
    var names := LegalNames(d);
    assert names == [d.registry.value.legalName, d.circular.value.legalName, d.ubo.value.legalName];
    assert names[1] != names[0];
  }

  lemma SpellingsMatch(head: string, form: nat, m: EntityMap, person: (string, string) -> real,
        legal: (string, string) -> real)
    requires m == Matchers(person, legal) && form < 4 && Plain(head)
    ensures m.sameLegal(LegalName(head, form), LegalName(head, form))
    ensures m.sameLegal(LegalName(head, form), TrUpper(head) + " " + LEGAL_SUFFIXES[form].1)
    ensures m.sameLegal(LegalName(head, form), AsciiDegrade(head) + " " + LEGAL_SUFFIXES[form].2)
  {
    SpellingsShareOneKey(head, form);
  }

  lemma SpellingsDiffer(head: string, form: nat)
    requires form < 4
    ensures TrUpper(head) + " " + LEGAL_SUFFIXES[form].1 != LegalName(head, form)
  {
    var k := CapsFormsDiffer(form);
    DifferFromEnd(head + " ", LEGAL_SUFFIXES[form].0, TrUpper(head) + " ", LEGAL_SUFFIXES[form].1, k);
  }

  // A plan the injector may be applied to: a base whose head and holder names carry no legal
  // suffix of their own, under the real matchers.
  ghost predicate Respellable(p: Plan, m: EntityMap, head: string, form: nat, person: (string, string) -> real,
        legal: (string, string) -> real) {
    && IsBase(p) && m == Matchers(person, legal)
    && form < 4 && p.legalReg == LegalName(head, form) && Trimmed(head) && Plain(head) && PlainNames(p.regOwners)
  }

  lemma A1Identity(p: Plan, m: EntityMap, head: string, form: nat, person: (string, string) -> real,
        legal: (string, string) -> real)
    requires Respellable(p, m, head, form, person, legal)
    ensures NodeFindings(IdentityCheck, ToDossier(InjectA1(p)), Cfg(m)) == [CheckFinding(IdentityCheck, A1, Info)]
  {
    hide NodeFindings, LegalName, Matchers, Plain, TrUpper, AsciiDegrade;
    RespelledPlan(p, head, form);
    SpellingsMatch(head, form, m, person, legal);
    SpellingsDiffer(head, form);
    ThreeSpellings(ToDossier(InjectA1(p)), Cfg(m));
  }

  lemma A1Ownership(p: Plan, m: EntityMap, head: string, form: nat, person: (string, string) -> real,
        legal: (string, string) -> real)
    requires Respellable(p, m, head, form, person, legal)
    ensures NodeFindings(OwnershipCheck, ToDossier(InjectA1(p)), Cfg(m)) == []
  {
    hide NodeFindings, Matchers, Aligned, SamePcts;
    RespelledPlan(p, head, form);
    DegradedOwnersAlign(m, p.regOwners, person, legal);
    OwnershipClean(ToDossier(InjectA1(p)), Cfg(m));
  }

  lemma A1Authority(p: Plan, m: EntityMap, head: string, form: nat, person: (string, string) -> real,
        legal: (string, string) -> real)
    requires Respellable(p, m, head, form, person, legal)
    ensures NodeFindings(AuthorityCheck, ToDossier(InjectA1(p)), Cfg(m)) == []
  {
    hide NodeFindings, AsciiDegrade, Turkish.MatchingKey;
    RespelledPlan(p, head, form);
    KeyIgnoresDegrading(p.declarant);
    AuthorityClean(ToDossier(InjectA1(p)), Cfg(m));
  }

  lemma DegradedPercentages(owners: seq<Holder>)
    requires Percentages(owners)
    ensures Percentages(Degrade(owners)) && Declared(Degrade(owners)) == Degrade(Declared(owners))
  {
    DegradeDeclared(owners);
  }

  lemma A1Rest(p: Plan, m: EntityMap, head: string, form: nat, person: (string, string) -> real,
        legal: (string, string) -> real)
    requires Respellable(p, m, head, form, person, legal)
    ensures NodeFindings(UboCheck, ToDossier(InjectA1(p)), Cfg(m)) == []
    ensures NodeFindings(CompletenessCheck, ToDossier(InjectA1(p)), Cfg(m)) == []
  {
    hide NodeFindings, AsciiDegrade, Percentages, Degrade, Matchers;
    MatchersAreReflexive(person, legal);
    RespelledPlan(p, head, form);
    SplitIsPercentages(p.regOwners);
    DegradedPercentages(p.regOwners);
    PlanUboClean(InjectA1(p), m);
    BaseIsFilled(p);
    DegradedIsFilled(p.declarant);
    PlanComplete(InjectA1(p), m);
  }

  // For every head and every holder name without a legal suffix of its own, every legal form
  // and all fuzzy scores: one informational A1 and nothing else.
  lemma A1Isolated(p: Plan, m: EntityMap, head: string, form: nat, person: (string, string) -> real,
        legal: (string, string) -> real)
    requires Respellable(p, m, head, form, person, legal)
    ensures Found(InjectA1(p), m) == [CheckFinding(IdentityCheck, A1, Info)]
  {
    hide NodeFindings, ToDossier, InjectA1, Respellable;
    A1Identity(p, m, head, form, person, legal);
    A1Ownership(p, m, head, form, person, legal);
    A1Authority(p, m, head, form, person, legal);
    A1Rest(p, m, head, form, person, legal);
    Assemble(ToDossier(InjectA1(p)), Cfg(m), [CheckFinding(IdentityCheck, A1, Info)], [], [], [], []);
  }
}
