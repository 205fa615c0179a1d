/** The generator's promise over every recipe: a generated dossier is found for exactly the
    code it was labelled with and finalized to exactly the labelled decision, if and only if
    the names drawn do not collide. */
module GeneratedCases {
  import opened Contracts
  import opened Guardrail
  import opened Graph
  import opened Checks
  import opened Generator
  import opened Isolation
  import opened SpellingIsolation
  import opened Metrics
  import SpellingVariants
  import NamePools
  import SuffixRewriting
  import Turkish

  // A recipe with the choices it draws on top of a clean base.
  datatype Recipe =
    | Untouched
    | RecipeA1
    | RecipeA2(alt: string)
    | RecipeB1a
    | RecipeB1b(older: nat)
    | RecipeB2a(drop: real)
    | RecipeB2b(add: real)
    | RecipeC1a(beyond: nat, before: nat, stranger: string)
    | RecipeC1b(later: nat, stranger: string)
    | RecipeC2(before: nat)
    | RecipeD1a(extra: string)
    | RecipeD1b(extra: string)
    | RecipeE1(which: Document)
    | RecipeE2(blank: Blank)
    | EdgeNone(other: string)
    | EdgeC1a(stranger: string)
    | EdgeC1b(stranger: string)
    | EdgeC2
    | EdgeD1a(other: string)

  // What the recipe may draw.
  ghost predicate Draws(r: Recipe, p: Plan) {
    match r
    case RecipeA2(alt) => Digits(alt) && alt != p.taxReg
    case RecipeB1b(older) => 200 <= older <= 900
    case RecipeB2a(drop) => drop == 3.0 || drop == 5.0 || drop == 8.0
    case RecipeB2b(add) => add == 5.0 || add == 10.0 || add == 15.0
    case RecipeC1a(beyond, before, stranger) => 30 <= beyond <= 500 && 10 <= before <= 60 && Stranger(stranger, p)
    case RecipeC1b(later, stranger) => 10 <= later <= 200 && Stranger(stranger, p)
    case RecipeC2(before) => 10 <= before <= 400
    case RecipeE2(blank) => blank != NoBlank
    case EdgeC1a(stranger) => Stranger(stranger, p)
    case EdgeC1b(stranger) => Stranger(stranger, p)
    case _ => true
  }

  // _new_person_not_in compares spellings only.
  ghost predicate Stranger(name: string, p: Plan) {
    Filled(name) && forall i :: 0 <= i < |p.signatories| ==> p.signatories[i].name != name
  }

  predicate Shaped(p: Plan) {
    |p.regOwners| >= 2 && p.uboOwners != [] && p.signatories != []
  }

  function Apply(r: Recipe, p: Plan): Plan
    requires Shaped(p)
  {
    match r
    case Untouched => p
    case RecipeA1 => InjectA1(p)
    case RecipeA2(alt) => InjectA2(p, alt)
    case RecipeB1a => InjectB1a(p)
    case RecipeB1b(older) => InjectB1b(p, older)
    case RecipeB2a(drop) => InjectB2a(p, drop)
    case RecipeB2b(add) => InjectB2b(p, add)
    case RecipeC1a(beyond, before, stranger) => InjectC1a(p, beyond, before, stranger)
    case RecipeC1b(later, stranger) => InjectC1b(p, later, stranger)
    case RecipeC2(before) => InjectC2(p, before)
    case RecipeD1a(extra) => InjectD1a(p, extra)
    case RecipeD1b(extra) => InjectD1b(p, extra)
    case RecipeE1(which) => InjectE1(p, which)
    case RecipeE2(blank) => InjectE2(p, blank)
    case EdgeNone(other) => BoundaryNone(p, other)
    case EdgeC1a(stranger) => BoundaryC1a(p, stranger)
    case EdgeC1b(stranger) => BoundaryC1b(p, stranger)
    case EdgeC2 => BoundaryC2(p)
    case EdgeD1a(other) => BoundaryD1a(p, other)
  }

  // The label the generator attaches; None is "NONE".
  function Label(r: Recipe): Option<Code> {
    match r
    case Untouched => None
    case EdgeNone(_) => None
    case RecipeA1 => Some(A1)
    case RecipeA2(_) => Some(A2)
    case RecipeB1a => Some(B1a)
    case RecipeB1b(_) => Some(B1b)
    case RecipeB2a(_) => Some(B2a)
    case RecipeB2b(_) => Some(B2b)
    case RecipeC1a(_, _, _) => Some(C1a)
    case RecipeC1b(_, _) => Some(C1b)
    case RecipeC2(_) => Some(C2)
    case RecipeD1a(_) => Some(D1a)
    case RecipeD1b(_) => Some(D1b)
    case RecipeE1(_) => Some(E1)
    case RecipeE2(_) => Some(E2)
    case EdgeC1a(_) => Some(C1a)
    case EdgeC1b(_) => Some(C1b)
    case EdgeC2 => Some(C2)
    case EdgeD1a(_) => Some(D1a)
  }

  // DECISION_FOR_CODE
  function LabelledDecision(code: Option<Code>): Decision {
    if code.None? || code.value == A1 then Approve
    else if code.value in {A2, B1b, B2b, C1b, D1b} then Escalate
    else RequestMoreInfo
  }

  // No name drawn for the recipe matches one it has to differ from.
  ghost predicate CollisionFree(r: Recipe, p: Plan, m: EntityMap)
    requires Shaped(p)
  {
    match r
    case RecipeC1a(_, _, stranger) => !Collides(m, stranger, p.signatories)
    case RecipeC1b(_, stranger) => !Collides(m, stranger, p.signatories)
    case EdgeC1a(stranger) => !Collides(m, stranger, p.signatories)
    case EdgeC1b(stranger) => !Collides(m, stranger, p.signatories)
    case RecipeD1a(_) =>
      var required := Declared(p.uboOwners);
      required != [] && Undeclared(m, required[|required| - 1], required[..|required| - 1])
    case EdgeD1a(other) => !m.samePerson(other, p.uboOwners[0].name)
    case _ => true
  }

  // A screening whose model answers, raises no concern and proposes anything.
  function Screened(p: Plan, m: EntityMap, proposed: Decision, reasoning: string): AgentResult {
    Screen(ToDossier(p), Cfg(m), Returned(TriageResult([])), Returned(Available(proposed, reasoning)))
  }

  // Findings that carry one label and lead to its decision.
  ghost predicate Carries(fs: seq<Finding>, code: Option<Code>) {
    AgentFindingCodes(fs) == {code} && Decide(fs) == LabelledDecision(code)
  }

  lemma NoFindingCarriesNone()
    ensures Carries([], None)
  {}

  function ExpectedSeverity(code: Code): Severity {
    if code == A1 then Info else if code in {A2, B1b, B2b, C1b, D1b} then Unexplainable else Explainable
  }

  function CheckOf(code: Code): Node {
    if code in {A1, A2} then IdentityCheck
    else if code in {B1a, B1b, B2a, B2b} then OwnershipCheck
    else if code in {C1a, C1b, C2} then AuthorityCheck
    else if code in {D1a, D1b} then UboCheck
    else CompletenessCheck
  }

  function ExpectedFinding(code: Code): Finding {
    CheckFinding(CheckOf(code), code, ExpectedSeverity(code))
  }

  // The findings a recipe's isolation lemma speaks of.
  function ExpectedFindings(r: Recipe): seq<Finding> {
    match Label(r)
    case None => []
    case Some(code) =>
      if r == RecipeE2(BlankTaxId) then [ExpectedFinding(E2), ExpectedFinding(E2), ExpectedFinding(E2)]
      else [ExpectedFinding(code)]
  }

  lemma RepeatedFinding(code: Code, fs: seq<Finding>)
    requires fs != [] && forall i :: 0 <= i < |fs| ==> fs[i] == ExpectedFinding(code)
    ensures Carries(fs, Some(code))
  {
    assert fs[0] == ExpectedFinding(code);
    assert Some(code) in DomainCodes(fs);
    assert forall x :: x in DomainCodes(fs) ==> x == Some(code);
  }

  lemma ExpectedFindingsCarry(r: Recipe)
    ensures Carries(ExpectedFindings(r), Label(r))
  {
    NoFindingCarriesNone();
    if Label(r).Some? {
      RepeatedFinding(Label(r).value, ExpectedFindings(r));
    }
  }

  lemma BaseIsShaped(p: Plan)
    requires IsBase(p)
    ensures Shaped(p)
  {}

  // What a recipe yields: its label's findings or, when names collide, nothing.
  ghost predicate Yields(r: Recipe, p: Plan, m: EntityMap)
    requires Shaped(p)
  {
    Found(Apply(r, p), m) == if CollisionFree(r, p, m) then ExpectedFindings(r) else []
  }

  lemma IdentityAndOwnership(r: Recipe, p: Plan, m: EntityMap)
    requires IsBase(p) && Reflexive(m) && Shaped(p) && Draws(r, p)
    requires r.Untouched? || r.RecipeA2? || r.RecipeB1a? || r.RecipeB1b? || r.RecipeB2a? || r.RecipeB2b?
    ensures Yields(r, p, m)
  {
    hide Found, IsBase, Reflexive, Shaped, InjectA2, InjectB1a, InjectB1b, InjectB2a, InjectB2b;
    match r
    case Untouched => BaseIsClean(p, m);
    case RecipeA2(alt) => A2Isolated(p, m, alt);
    case RecipeB1a => B1Isolated(p, m, 200);
    case RecipeB1b(older) => B1Isolated(p, m, older);
    case RecipeB2a(drop) => B2aIsolated(p, m, drop);
    case RecipeB2b(add) => B2bIsolated(p, m, add);
  }

  lemma Strangers(r: Recipe, p: Plan, m: EntityMap)
    requires IsBase(p) && Reflexive(m) && Shaped(p) && Draws(r, p)
    requires r.RecipeC1a? || r.RecipeC1b? || r.EdgeC1a? || r.EdgeC1b?
    ensures Yields(r, p, m)
  {
    hide Found, IsBase, Reflexive, Shaped, Collides, InjectC1a, InjectC1b, BoundaryC1a, BoundaryC1b, Filled;
    match r
    case RecipeC1a(beyond, before, stranger) => C1aIsolatedIff(p, m, beyond, before, stranger);
    case RecipeC1b(later, stranger) => C1bIsolatedIff(p, m, later, stranger);
    case EdgeC1a(stranger) => BoundaryC1aIsolatedIff(p, m, stranger);
    case EdgeC1b(stranger) => BoundaryC1bIsolatedIff(p, m, stranger);
  }

  lemma Expiries(r: Recipe, p: Plan, m: EntityMap)
    requires IsBase(p) && Reflexive(m) && Shaped(p) && Draws(r, p)
    requires r.RecipeC2? || r.EdgeC2?
    ensures Yields(r, p, m)
  {
    hide Found, IsBase, Reflexive, Shaped, InjectC2, BoundaryC2;
    match r
    case RecipeC2(before) => C2Isolated(p, m, before);
    case EdgeC2 => BoundaryC2Isolated(p, m);
  }

  lemma OwnersAndFields(r: Recipe, p: Plan, m: EntityMap)
    requires IsBase(p) && Reflexive(m) && Shaped(p) && Draws(r, p)
    requires r.RecipeD1a? || r.RecipeD1b? || r.RecipeE1? || r.RecipeE2? || r.EdgeNone? || r.EdgeD1a?
    ensures Yields(r, p, m)
  {
    hide Found, IsBase, Reflexive, Shaped, Undeclared, InjectD1a, InjectD1b, InjectE1, InjectE2, BoundaryNone,
      BoundaryD1a;
    match r
    case RecipeD1a(extra) => D1aIsolatedIff(p, m, extra);
    case RecipeD1b(extra) => D1bIsolated(p, m, extra);
    case RecipeE1(which) => E1Isolated(p, m, which);
    case RecipeE2(blank) => E2Isolated(p, m, blank);
    case EdgeNone(other) => BoundaryNoneIsClean(p, m, other);
    case EdgeD1a(other) => BoundaryD1aIsolatedIff(p, m, other);
  }

  // Every recipe finds exactly what it is labelled with, or, when names collide, nothing.
  lemma RecipeFinds(r: Recipe, p: Plan, m: EntityMap, head: string, form: nat, person: (string, string) -> real,
        legal: (string, string) -> real)
    requires Respellable(p, m, head, form, person, legal) && Draws(r, p)
    ensures Shaped(p) && Yields(r, p, m)
  {
    hide Found, IsBase, Reflexive, Shaped, Draws;
    BaseIsShaped(p);
    MatchersAreReflexive(person, legal);
    match r
    case RecipeA1 => A1Isolated(p, m, head, form, person, legal);
    case Untouched => IdentityAndOwnership(r, p, m);
    case RecipeA2(_) => IdentityAndOwnership(r, p, m);
    case RecipeB1a => IdentityAndOwnership(r, p, m);
    case RecipeB1b(_) => IdentityAndOwnership(r, p, m);
    case RecipeB2a(_) => IdentityAndOwnership(r, p, m);
    case RecipeB2b(_) => IdentityAndOwnership(r, p, m);
    case RecipeC1a(_, _, _) => Strangers(r, p, m);
    case RecipeC1b(_, _) => Strangers(r, p, m);
    case RecipeC2(_) => Expiries(r, p, m);
    case EdgeC1a(_) => Strangers(r, p, m);
    case EdgeC1b(_) => Strangers(r, p, m);
    case EdgeC2 => Expiries(r, p, m);
    case _ => OwnersAndFields(r, p, m);
  }

  lemma {:induction false} AllFindingsJoins(a: seq<Node>, b: seq<Node>, d: Dossier, c: Config)
    ensures AllFindings(a + b, d, c) == AllFindings(a, d, c) + AllFindings(b, d, c)
  {
    hide NodeFindings;
    if a == [] {
      assert a + b == b;
    } else {
      assert (a + b)[0] == a[0] && (a + b)[1..] == a[1..] + b;
      AllFindingsJoins(a[1..], b, d, c);
    }
  }

  // With no learned rule and no concern, a run's findings are those of the document checks.
  lemma ScreenedFindings(p: Plan, m: EntityMap, proposed: Decision, reasoning: string)
    ensures Screened(p, m, proposed, reasoning).findings == Found(p, m)
    ensures Screened(p, m, proposed, reasoning).decision == Decide(Found(p, m))
  {
    hide DOCUMENT_CHECKS, ToDossier, Screen, Decide;
    var d, c := ToDossier(p), Cfg(m);
    FindingsAreAccountedFor(d, c, Returned(TriageResult([])), Returned(Available(proposed, reasoning)));
    AllFindingsJoins(DOCUMENT_CHECKS, [LearnedRulesCheck], d, c);
    assert [LearnedRulesCheck][1..] == [];
    assert NodeFindings(LearnedRulesCheck, d, c) == [];
  }

  // Without a collision the run carries the label and its decision; with one it looks clean.
  ghost predicate AsLabelledIffFree(r: Recipe, p: Plan, m: EntityMap, run: AgentResult)
    requires Shaped(p)
  {
    && (CollisionFree(r, p, m)
        ==> AgentFindingCodes(run.findings) == {Label(r)} && run.decision == LabelledDecision(Label(r)))
    && (!CollisionFree(r, p, m)
        ==> AgentFindingCodes(run.findings) == {None} && run.decision == Approve && Label(r).Some?)
  }

  // The generator's promise: the run is found for its label and decided as labelled exactly
  // when the drawn names do not collide. A collision makes the case look clean.
  lemma GeneratedAsLabelled(r: Recipe, p: Plan, m: EntityMap, head: string, form: nat, person: (string, string) -> real,
        legal: (string, string) -> real, proposed: Decision, reasoning: string)
    requires Respellable(p, m, head, form, person, legal) && Draws(r, p)
    ensures Shaped(p) && AsLabelledIffFree(r, p, m, Screened(Apply(r, p), m, proposed, reasoning))
  {
    hide Found, Screened, Apply, Respellable, Draws, ExpectedFindings, Shaped;
    RecipeFinds(r, p, m, head, form, person, legal);
    ScreenedFindings(Apply(r, p), m, proposed, reasoning);
    ExpectedFindingsCarry(r);
    NoFindingCarriesNone();
  }

  // What the pools guarantee of a clean base's draws: digits, names that are not blank and
  // carry no legal suffix, and a trimmed head that carries none either.
  ghost predicate FromPools(ch: Choices) {
    && Drawable(ch) && Nameable(ch) && Trimmed(ch.head) && SpellingVariants.Plain(ch.head)
    && forall i :: 0 <= i < |ch.people| ==> SpellingVariants.Plain(ch.people[i])
  }

  // Every clean base may be given to every recipe.
  lemma CleanBaseIsRespellable(ch: Choices, person: (string, string) -> real, legal: (string, string) -> real)
    requires FromPools(ch)
    ensures Respellable(CleanBase(ch), Matchers(person, legal), ch.head, ch.form, person, legal)
  {
    hide IsBase, SpellingVariants.Plain, Drawable;
    CleanBaseIsBase(ch);
    BaseOf(ch);
  }

  lemma BaseOf(ch: Choices)
    requires Drawable(ch)
    ensures CleanBase(ch).legalReg == LegalName(ch.head, ch.form) && ch.form < 4
    ensures CleanBase(ch).regOwners == Owners(ch.people, ch.shape)
  {}

  // ----- the pools -----

  ghost predicate IsPerson(name: string) {
    exists i: nat, k: nat :: i < |NamePools.FIRST_NAMES| && k < |NamePools.SURNAMES|
      && name == NamePools.FIRST_NAMES[i] + " " + NamePools.SURNAMES[k]
  }

  ghost predicate IsHead(head: string) {
    exists i: nat, k: nat :: i < |NamePools.COMPANY_CORES| && k < |NamePools.SECTORS|
      && head == NamePools.COMPANY_CORES[i] + " " + NamePools.SECTORS[k]
  }

  // What clean_base draws from.
  ghost predicate DrawnFromPools(ch: Choices) {
    Drawable(ch) && Digits(ch.taxId) && IsHead(ch.head) && forall i :: 0 <= i < |ch.people| ==> IsPerson(ch.people[i])
  }

  lemma PoolTextIsInk(w1: string, w2: string)
    requires NamePools.PoolWord(w1) && NamePools.PoolWord(w2)
    ensures Filled(w1 + " " + w2) && Trimmed(w1 + " " + w2)
  {
    var t := w1 + " " + w2;
    assert t[0] == w1[0] && t[|t| - 1] == w2[|w2| - 1];
    NamePools.LetterIsInk(t[0]);
    NamePools.LetterIsInk(t[|t| - 1]);
    InkAtTheEnd(t);
    InkAtTheStart(t);
  }

  lemma InkAtTheStart(t: string)
    requires t != "" && !SuffixRewriting.IsSpace(t[0]) && !SuffixRewriting.IsSpace(t[|t| - 1])
    ensures Turkish.Strip(t) == t
  {}

  lemma PersonIsPlain(name: string)
    requires IsPerson(name)
    ensures Filled(name) && SpellingVariants.Plain(name)
  {
    hide NamePools.FIRST_NAMES, NamePools.SURNAMES, NamePools.PoolWord, SpellingVariants.Plain;
    var i: nat, k: nat :| i < |NamePools.FIRST_NAMES| && k < |NamePools.SURNAMES|
      && name == NamePools.FIRST_NAMES[i] + " " + NamePools.SURNAMES[k];
    NamePools.FirstNamesArePoolWords(i);
    NamePools.SurnamesArePoolWords(k);
    NamePools.PoolWordsArePlain(NamePools.FIRST_NAMES[i], NamePools.SURNAMES[k]);
    PoolTextIsInk(NamePools.FIRST_NAMES[i], NamePools.SURNAMES[k]);
  }

  lemma HeadIsPlain(head: string)
    requires IsHead(head)
    ensures Trimmed(head) && SpellingVariants.Plain(head)
  {
    hide NamePools.COMPANY_CORES, NamePools.SECTORS, NamePools.PoolWord, SpellingVariants.Plain;
    var i: nat, k: nat :| i < |NamePools.COMPANY_CORES| && k < |NamePools.SECTORS|
      && head == NamePools.COMPANY_CORES[i] + " " + NamePools.SECTORS[k];
    NamePools.CoresArePoolWords(i);
    NamePools.SectorsArePoolWords(k);
    NamePools.PoolWordsArePlain(NamePools.COMPANY_CORES[i], NamePools.SECTORS[k]);
    PoolTextIsInk(NamePools.COMPANY_CORES[i], NamePools.SECTORS[k]);
  }

  lemma PoolDrawsAreFromPools(ch: Choices)
    requires DrawnFromPools(ch)
    ensures FromPools(ch)
  {
    hide IsPerson, IsHead, Drawable, SpellingVariants.Plain, Filled, Trimmed, Digits;
    HeadIsPlain(ch.head);
    forall i | 0 <= i < |ch.people| ensures Filled(ch.people[i]) && SpellingVariants.Plain(ch.people[i]) {
      PersonIsPlain(ch.people[i]);
    }
  }

  // The generator's promise for every draw from its pools, every recipe and all fuzzy scores.
  lemma EveryDrawIsLabelled(ch: Choices, r: Recipe, person: (string, string) -> real, legal: (string, string) -> real,
        proposed: Decision, reasoning: string)
    requires DrawnFromPools(ch) && Draws(r, CleanBase(ch))
    ensures Shaped(CleanBase(ch))
    ensures var (p, m) := (CleanBase(ch), Matchers(person, legal));
      AsLabelledIffFree(r, p, m, Screened(Apply(r, p), m, proposed, reasoning))
  {
    hide FromPools, Drawable, IsHead, IsPerson, Draws, Respellable, Screened, Apply, CleanBase, Shaped, Matchers,
      CollisionFree;
    PoolDrawsAreFromPools(ch);
    CleanBaseIsRespellable(ch, person, legal);
    GeneratedAsLabelled(r, CleanBase(ch), Matchers(person, legal), ch.head, ch.form, person, legal, proposed,
      reasoning);
  }

  lemma LeadMatchesHimself(ch: Choices, person: (string, string) -> real, legal: (string, string) -> real)
    requires DrawnFromPools(ch)
    ensures Draws(EdgeD1a(ch.people[0]), CleanBase(ch)) && Shaped(CleanBase(ch))
    ensures !CollisionFree(EdgeD1a(ch.people[0]), CleanBase(ch), Matchers(person, legal))
  {
    MatchersAreReflexive(person, legal);
    assert CleanBase(ch).uboOwners[0].name == ch.people[0];
  }

  // A collision can be drawn from every base: the threshold boundary draws its second holder
  // unchecked, and if that is the lead again the case labelled D1a looks clean.
  lemma UncheckedNameCanCollide(ch: Choices, person: (string, string) -> real, legal: (string, string) -> real,
        proposed: Decision, reasoning: string)
    requires DrawnFromPools(ch)
    ensures var (r, p) := (EdgeD1a(ch.people[0]), CleanBase(ch));
      && Draws(r, p) && Label(r) == Some(D1a) && Shaped(p)
      && var run := Screened(Apply(r, p), Matchers(person, legal), proposed, reasoning);
         AgentFindingCodes(run.findings) == {None} && run.decision == Approve
  {
    hide DrawnFromPools, Draws, CleanBase, Shaped, Screened, Apply, Matchers, CollisionFree;
    LeadMatchesHimself(ch, person, legal);
    EveryDrawIsLabelled(ch, EdgeD1a(PeopleOf(ch)[0]), person, legal, proposed, reasoning);
  }

  function PeopleOf(ch: Choices): (people: seq<string>)
    requires DrawnFromPools(ch)
    ensures people == ch.people && people != []
  {
    ch.people
  }
}
