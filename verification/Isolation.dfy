/** The generator against the checks: for every random choice, the clean base is clean and each
    injector is found for its own code and for nothing else. Where a drawn name can collide
    with another one, the exact condition is stated. */
module Isolation {
  import opened Contracts
  import opened Graph
  import opened Checks
  import opened Generator
  import Turkish
  import SpellingVariants
  import SuffixRewriting

  // What the five document checks find for a plan.
  function Found(p: Plan, m: EntityMap): seq<Finding> {
    AllFindings(DOCUMENT_CHECKS, ToDossier(p), Config(m, map[], []))
  }

  ghost predicate Reflexive(m: EntityMap) {
    forall a :: m.samePerson(a, a)
  }

  // ----- one check at a time -----

  lemma OneMore(node: Node, rest: seq<Node>, d: Dossier, c: Config, fs: seq<Finding>)
    requires AllFindings(rest, d, c) == fs
    ensures AllFindings([node] + rest, d, c) == NodeFindings(node, d, c) + fs
  {
    assert ([node] + rest)[1..] == rest;
  }

  lemma FoundSplits(d: Dossier, c: Config)
    ensures AllFindings(DOCUMENT_CHECKS, d, c)
      == NodeFindings(IdentityCheck, d, c) + (NodeFindings(OwnershipCheck, d, c)
        + (NodeFindings(AuthorityCheck, d, c)
            + (NodeFindings(UboCheck, d, c) + (NodeFindings(CompletenessCheck, d, c) + []))))
  {
    OneMore(CompletenessCheck, [], d, c, []);
    var e := NodeFindings(CompletenessCheck, d, c) + [];
    OneMore(UboCheck, [CompletenessCheck] + [], d, c, e);
    var u := NodeFindings(UboCheck, d, c) + e;
    OneMore(AuthorityCheck, [UboCheck] + ([CompletenessCheck] + []), d, c, u);
    var a := NodeFindings(AuthorityCheck, d, c) + u;
    OneMore(OwnershipCheck, [AuthorityCheck] + ([UboCheck] + ([CompletenessCheck] + [])), d, c, a);
    var o := NodeFindings(OwnershipCheck, d, c) + a;
    OneMore(IdentityCheck, [OwnershipCheck] + ([AuthorityCheck] + ([UboCheck] + ([CompletenessCheck] + []))), d, c, o);
    assert DOCUMENT_CHECKS
      == [IdentityCheck] + ([OwnershipCheck] + ([AuthorityCheck] + ([UboCheck] + ([CompletenessCheck] + []))));
  }

  // The positions below n.
  function Below(n: nat): (r: set<nat>)
    ensures forall k: nat :: k in r <==> k < n
  {
    if n == 0 then {} else Below(n - 1) + {n - 1}
  }

  function Zip(s1: seq<Holder>, s3: seq<Holder>): seq<(Holder, Holder)>
    requires |s1| >= |s3|
  {
    seq(|s3|, i requires 0 <= i < |s3| => (s1[i], s3[i]))
  }

  ghost predicate Aligned(m: EntityMap, s1: seq<Holder>, s3: seq<Holder>) {
    |s3| <= |s1| && forall i :: 0 <= i < |s3| ==> m.samePerson(s1[i].name, s3[i].name)
  }

  lemma {:induction false} FirstUnusedIs(m: EntityMap, name: string, s3: seq<Holder>, used: set<nat>, j: nat, k: nat)
    requires j <= k <= |s3| && (forall i: nat :: j <= i < k ==> i in used)
    requires k < |s3| ==> k !in used && m.samePerson(name, s3[k].name)
    ensures FirstUnused(m, name, s3, used, j) == if k < |s3| then Some(k) else None
    decreases k - j
  {
    if j < k {
      FirstUnusedIs(m, name, s3, used, j + 1, k);
    }
  }

  // With every position taken, everyone left over exits.
  lemma {:induction false} RestExits(m: EntityMap, s1: seq<Holder>, s3: seq<Holder>, used: set<nat>)
    requires forall k: nat :: k < |s3| ==> k in used
    ensures MatchFrom(m, s1, s3, used) == Matching([], s1, used)
  {
    if s1 != [] {
      FirstUnusedIs(m, s1[0].name, s3, used, 0, |s3|);
      RestExits(m, s1[1..], s3, used);
    }
  }

  lemma MatchStep(m: EntityMap, s1: seq<Holder>, s3: seq<Holder>, i: nat)
    requires Aligned(m, s1, s3) && i < |s3|
    ensures var rest := MatchFrom(m, s1[i + 1..], s3, Below(i + 1));
      MatchFrom(m, s1[i..], s3, Below(i)) == Matching([(s1[i], s3[i])] + rest.pairs, rest.exited, rest.used)
  {
    FirstUnusedIs(m, s1[i].name, s3, Below(i), 0, i);
    assert s1[i..][0] == s1[i] && s1[i..][1..] == s1[i + 1..];
  }

  lemma ZipTail(s1: seq<Holder>, s3: seq<Holder>, i: nat)
    requires i < |s3| <= |s1|
    ensures Zip(s1, s3)[i..] == [(s1[i], s3[i])] + Zip(s1, s3)[i + 1..]
  {}

  // Greedy matching walks down the diagonal of two aligned lists; what is left over exits.
  lemma {:induction false} Diagonal(m: EntityMap, s1: seq<Holder>, s3: seq<Holder>, i: nat)
    requires Aligned(m, s1, s3) && i <= |s3|
    ensures MatchFrom(m, s1[i..], s3, Below(i)) == Matching(Zip(s1, s3)[i..], s1[|s3|..], Below(|s3|))
    decreases |s3| - i
  {
    hide MatchFrom;
    if i == |s3| {
      RestExits(m, s1[i..], s3, Below(i));
    } else {
      MatchStep(m, s1, s3, i);
      Diagonal(m, s1, s3, i + 1);
      ZipTail(s1, s3, i);
    }
  }

  lemma {:induction false} NoneNew(s3: seq<Holder>, j: nat)
    ensures NewHolders(s3, Below(|s3|), j) == []
    decreases |s3| - j
  {
    if j < |s3| {
      NoneNew(s3, j + 1);
    }
  }

  lemma AlignedMatching(m: EntityMap, s1: seq<Holder>, s3: seq<Holder>)
    requires Aligned(m, s1, s3)
    ensures var r := MatchFrom(m, s1, s3, {});
      r.pairs == Zip(s1, s3) && r.exited == s1[|s3|..] && NewHolders(s3, r.used, 0) == []
  {
    assert Below(0) == {} && s1[0..] == s1 && Zip(s1, s3)[0..] == Zip(s1, s3);
    Diagonal(m, s1, s3, 0);
    NoneNew(s3, 0);
  }

  // Aligned lists of equal length with equal percentages, summing to 100, are consistent.
  lemma SameOwners(m: EntityMap, s1: seq<Holder>, s3: seq<Holder>, newer: bool)
    requires Aligned(m, s1, s3) && |s1| == |s3| && forall i :: 0 <= i < |s1| ==> s1[i].pct == s3[i].pct
    ensures DeltaOf(m, s1, s3).same
  {
    AlignedMatching(m, s1, s3);
  }

  lemma {:induction false} TotalOfEqualPcts(a: seq<Holder>, b: seq<Holder>)
    requires |a| == |b| && forall i :: 0 <= i < |a| ==> a[i].pct == b[i].pct
    ensures Total(a) == Total(b)
  {
    if a != [] {
      TotalOfEqualPcts(a[1..], b[1..]);
    }
  }

  // ----- beneficial owners -----

  // No percentage falls between the generator's threshold tolerance and the check's.
  ghost predicate Separated(owners: seq<Holder>) {
    forall i :: 0 <= i < |owners|
      ==> owners[i].pct + 0.001 >= UBO_THRESHOLD_PCT || owners[i].pct + EPS < UBO_THRESHOLD_PCT
  }

  ghost predicate Covers(m: EntityMap, owners: seq<Holder>, declared: seq<Holder>) {
    forall i :: 0 <= i < |owners| && owners[i].pct + EPS >= UBO_THRESHOLD_PCT ==>
      exists k :: 0 <= k < |declared| && m.samePerson(owners[i].name, declared[k].name)
  }

  lemma {:induction false} CoveredFindNothing(m: EntityMap, owners: seq<Holder>, declared: seq<Holder>)
    requires Covers(m, owners, declared)
    ensures UndeclaredFindings(m, owners, declared) == []
  {
    if owners != [] {
      CoveredFindNothing(m, owners[1..], declared);
    }
  }

  lemma {:induction false} DeclaredContains(owners: seq<Holder>, i: nat)
    requires i < |owners| && owners[i].pct + 0.001 >= UBO_THRESHOLD_PCT
    ensures owners[i] in Declared(owners)
  {
    if i > 0 {
      DeclaredContains(owners[1..], i - 1);
    }
  }

  lemma {:induction false} DeclaredTotal(owners: seq<Holder>)
    requires forall i :: 0 <= i < |owners| ==> owners[i].pct >= 0.0
    ensures 0.0 <= Total(Declared(owners)) <= Total(owners)
    ensures forall i :: 0 <= i < |Declared(owners)| ==> 0.0 <= Declared(owners)[i].pct <= Total(Declared(owners))
  {
    if owners != [] {
      DeclaredTotal(owners[1..]);
    }
  }

  ghost predicate Percentages(owners: seq<Holder>) {
    Total(owners) <= 100.0 && Separated(owners) && forall i :: 0 <= i < |owners| ==> owners[i].pct >= 0.0
  }

  lemma DeclaredIsPossible(owners: seq<Holder>)
    requires Percentages(owners)
    ensures !Impossible(Declared(owners))
  {
    DeclaredTotal(owners);
  }

  lemma DeclaredCovers(m: EntityMap, owners: seq<Holder>, declared: seq<Holder>)
    requires Reflexive(m) && Separated(owners) && declared == Declared(owners)
    ensures Covers(m, owners, declared)
  {
    forall i | 0 <= i < |owners| && owners[i].pct + EPS >= UBO_THRESHOLD_PCT
      ensures exists k :: 0 <= k < |declared| && m.samePerson(owners[i].name, declared[k].name)
    {
      DeclaredContains(owners, i);
      var k :| 0 <= k < |declared| && declared[k] == owners[i];
      assert m.samePerson(owners[i].name, declared[k].name);
    }
  }

  // ----- one check node at a time -----

  // The documents all agree on identity.
  lemma IdentityClean(d: Dossier, c: Config)
    requires AllEqual(TaxIds(d)) && AllEqual(LegalNames(d))
    ensures NodeFindings(IdentityCheck, d, c) == []
  {}

  lemma OwnershipClean(d: Dossier, c: Config)
    requires d.registry.Some? && d.ubo.Some? ==>
      && Aligned(c.emap, d.registry.value.shareholders, d.ubo.value.shareholders)
      && SamePcts(d.registry.value.shareholders, d.ubo.value.shareholders)
      && Total(d.registry.value.shareholders) == 100.0
    ensures NodeFindings(OwnershipCheck, d, c) == []
  {
    if d.registry.Some? && d.ubo.Some? {
      var s1, s3 := d.registry.value.shareholders, d.ubo.value.shareholders;
      SameOwners(c.emap, s1, s3, d.ubo.value.date > d.registry.value.date);
      TotalOfEqualPcts(s1, s3);
    }
  }

  ghost predicate SamePcts(a: seq<Holder>, b: seq<Holder>) {
    |a| == |b| && forall i :: 0 <= i < |a| ==> a[i].pct == b[i].pct
  }

  lemma AuthorityClean(d: Dossier, c: Config)
    requires d.circular.Some? && d.ubo.Some? ==>
      var sigs := d.circular.value.signatories;
      && sigs != [] && c.emap.samePerson(d.ubo.value.declarant, sigs[0].name)
      && sigs[0].validUntil.Some? && sigs[0].validUntil.value >= d.ubo.value.date
    ensures NodeFindings(AuthorityCheck, d, c) == []
  {}

  lemma UboClean(d: Dossier, c: Config)
    requires d.ubo.Some?
      ==> !Impossible(d.ubo.value.declared) && Covers(c.emap, d.ubo.value.shareholders, d.ubo.value.declared)
    ensures NodeFindings(UboCheck, d, c) == []
  {
    if d.ubo.Some? {
      CoveredFindNothing(c.emap, d.ubo.value.shareholders, d.ubo.value.declared);
    }
  }

  // Every mandatory field of the documents present is filled.
  ghost predicate FieldsFilled(d: Dossier) {
    && (d.registry.Some?
        ==> Filled(d.registry.value.taxId) && Filled(d.registry.value.legalName) && d.registry.value.shareholders != [])
    && (d.circular.Some? ==> Filled(d.circular.value.taxId) && d.circular.value.signatories != [])
    && (d.ubo.Some? ==> Filled(d.ubo.value.taxId) && Filled(d.ubo.value.declarant))
  }

  lemma CompletenessClean(d: Dossier, c: Config)
    requires FieldsFilled(d)
    ensures NodeFindings(CompletenessCheck, d, c) == Missing(d.registry) + Missing(d.circular) + Missing(d.ubo)
  {}

  lemma Assemble(d: Dossier, c: Config, i: seq<Finding>, o: seq<Finding>, a: seq<Finding>, u: seq<Finding>,
        k: seq<Finding>)
    requires NodeFindings(IdentityCheck, d, c) == i && NodeFindings(OwnershipCheck, d, c) == o
    requires NodeFindings(AuthorityCheck, d, c) == a && NodeFindings(UboCheck, d, c) == u
    requires NodeFindings(CompletenessCheck, d, c) == k
    ensures AllFindings(DOCUMENT_CHECKS, d, c) == i + o + a + u + k
  {
    hide NodeFindings;
    FoundSplits(d, c);
    assert i + (o + (a + (u + (k + [])))) == i + o + a + u + k;
  }

  // ----- the base -----

  predicate Digits(t: string) {
    |t| == 10 && forall i :: 0 <= i < |t| ==> '0' <= t[i] <= '9'
  }

  // What clean_base guarantees of a plan, whatever it drew.
  ghost predicate IsBase(p: Plan) {
    && p.hasReg && p.hasCirc && p.hasUbo && p.blank == NoBlank
    && p.taxReg == p.taxCirc == p.taxUbo && Digits(p.taxReg)
    && p.legalReg == p.legalCirc == p.legalUbo && Filled(p.legalReg)
    && p.regDate < p.circDate < p.uboDate
    && IsSplit(p.regOwners) && p.uboOwners == p.regOwners && p.declared == Declared(p.uboOwners)
    && Filled(p.declarant) && p.declarant == p.regOwners[0].name
    && SignedFrom(p.signatories, p.declarant, p.uboDate)
  }

  // The first signatory is the declarant and nobody's authority has expired.
  ghost predicate SignedFrom(sigs: seq<Signatory>, declarant: string, date: int) {
    && sigs != [] && sigs[0].name == declarant
    && forall i :: 0 <= i < |sigs| ==> sigs[i].validUntil.Some? && sigs[i].validUntil.value >= date
  }

  // Two or three holders summing to 100, the first two clearly above the threshold and the
  // first one far enough above it to lose eight points, none between the tolerances.
  ghost predicate IsSplit(owners: seq<Holder>) {
    && 2 <= |owners| <= 3 && Total(owners) == 100.0 && Separated(owners)
    && 34.0 <= owners[0].pct <= 70.0 && owners[1].pct >= 25.0
    && (forall i :: 0 <= i < |owners| ==> owners[i].pct >= 20.0)
  }

  lemma TotalStep(owners: seq<Holder>)
    ensures Total(owners) == if owners == [] then 0.0 else owners[0].pct + Total(owners[1..])
  {}

  lemma SplitsSumToHundred(owners: seq<Holder>)
    requires |owners| == 2 || |owners| == 3
    ensures Total(owners) == owners[0].pct + owners[1].pct + (if |owners| == 3 then owners[2].pct else 0.0)
  {
    hide Total;
    TotalStep(owners);
    TotalStep(owners[1..]);
    TotalStep(owners[2..]);
    TotalStep([]);
    assert owners[1..][0] == owners[1] && owners[1..][1..] == owners[2..];
    if |owners| == 3 {
      assert owners[2..][0] == owners[2] && owners[2..][1..] == [];
    }
  }

  lemma OwnersAreASplit(ch: Choices)
    requires Drawable(ch)
    ensures IsSplit(Owners(ch.people, ch.shape))
  {
    var owners := Owners(ch.people, ch.shape);
    SplitsSumToHundred(owners);
    if |ch.people| == 2 {
      var i :| 0 <= i < |PAIR_LEADS| && PAIR_LEADS[i] == ch.shape[0];
    } else {
      var i :| 0 <= i < |TRIPLES| && TRIPLES[i] == ch.shape;
    }
  }

  lemma {:induction false} LeftKeepsInk(t: string, i: nat)
    requires i < |t| && !SuffixRewriting.IsSpace(t[i])
    ensures Turkish.StripLeft(t) != ""
  {
    if i > 0 && SuffixRewriting.IsSpace(t[0]) {
      LeftKeepsInk(t[1..], i - 1);
    }
  }

  // A text ending in ink is filled, and only its left end is stripped.
  lemma InkAtTheEnd(t: string)
    requires t != "" && !SuffixRewriting.IsSpace(t[|t| - 1])
    ensures Filled(t) && (!SuffixRewriting.IsSpace(t[0]) ==> Turkish.Strip(t) == t)
  {
    LeftKeepsInk(t, |t| - 1);
  }

  lemma DigitsAreInk(t: string)
    requires Digits(t)
    ensures Turkish.Strip(t) == t && Filled(t)
  {
    InkAtTheEnd(t);
  }

  lemma LegalNameIsFilled(head: string, form: nat)
    requires form < |SpellingVariants.LEGAL_SUFFIXES|
    ensures Filled(LegalName(head, form))
  {
    InkAtTheEnd(LegalName(head, form));
  }

  // The draws a base is made of: digits for the tax id, names that are not blank.
  ghost predicate Nameable(ch: Choices) {
    Digits(ch.taxId) && forall i :: 0 <= i < |ch.people| ==> Filled(ch.people[i])
  }

  lemma CleanBaseIsBase(ch: Choices)
    requires Drawable(ch) && Nameable(ch)
    ensures IsBase(CleanBase(ch))
  {
    OwnersAreASplit(ch);
    LegalNameIsFilled(ch.head, ch.form);
  }

  lemma SplitIsPercentages(owners: seq<Holder>)
    requires IsSplit(owners)
    ensures Percentages(owners)
  {}

  lemma SelfAligned(m: EntityMap, owners: seq<Holder>)
    requires Reflexive(m)
    ensures Aligned(m, owners, owners)
  {}

  // ----- the nodes of a plan derived from a base -----

  function Cfg(m: EntityMap): Config {
    Config(m, map[], [])
  }

  lemma PlanIdentityClean(p: Plan, m: EntityMap)
    requires p.taxReg == p.taxCirc == p.taxUbo && p.legalReg == p.legalCirc == p.legalUbo
    ensures NodeFindings(IdentityCheck, ToDossier(p), Cfg(m)) == []
  {
    IdentityClean(ToDossier(p), Cfg(m));
  }

  lemma PlanOwnersClean(p: Plan, m: EntityMap)
    requires Reflexive(m) && p.uboOwners == p.regOwners && Total(p.regOwners) == 100.0
    ensures NodeFindings(OwnershipCheck, ToDossier(p), Cfg(m)) == []
  {
    SelfAligned(m, p.regOwners);
    OwnershipClean(ToDossier(p), Cfg(m));
  }

  lemma PlanAuthorityClean(p: Plan, m: EntityMap)
    requires Reflexive(m) && SignedFrom(p.signatories, p.declarant, p.uboDate)
    ensures NodeFindings(AuthorityCheck, ToDossier(p), Cfg(m)) == []
  {
    AuthorityClean(ToDossier(p), Cfg(m));
  }

  lemma PlanUboClean(p: Plan, m: EntityMap)
    requires Reflexive(m) && Percentages(p.uboOwners) && p.declared == Declared(p.uboOwners)
    ensures NodeFindings(UboCheck, ToDossier(p), Cfg(m)) == []
  {
    DeclaredIsPossible(p.uboOwners);
    DeclaredCovers(m, p.uboOwners, p.declared);
    UboClean(ToDossier(p), Cfg(m));
  }

  ghost predicate PlanFilled(p: Plan) {
    && Filled(p.taxReg) && Filled(p.taxCirc) && Filled(p.taxUbo) && Filled(p.legalReg) && p.blank == NoBlank
    && p.regOwners != [] && p.signatories != [] && Filled(p.declarant)
  }

  lemma PlanComplete(p: Plan, m: EntityMap)
    requires PlanFilled(p)
    ensures NodeFindings(CompletenessCheck, ToDossier(p), Cfg(m))
      == Missing(ToDossier(p).registry) + Missing(ToDossier(p).circular) + Missing(ToDossier(p).ubo)
  {
    CompletenessClean(ToDossier(p), Cfg(m));
  }

  lemma BaseIsFilled(p: Plan)
    requires IsBase(p)
    ensures PlanFilled(p)
  {
    DigitsAreInk(p.taxReg);
  }

  lemma UboNode(q: Plan, m: EntityMap)
    requires q.hasUbo
    ensures NodeFindings(UboCheck, ToDossier(q), Cfg(m)) == CheckUbo(ToDossier(q).ubo.value, m)
  {}

  lemma CompletenessNode(q: Plan, m: EntityMap)
    ensures NodeFindings(CompletenessCheck, ToDossier(q), Cfg(m)) == CheckCompleteness(ToDossier(q))
  {}

  // ----- the clean base -----

  // Every clean base is clean, even when drawn names collide under the matcher.
  lemma BaseIsClean(p: Plan, m: EntityMap)
    requires IsBase(p) && Reflexive(m)
    ensures Found(p, m) == []
  {
    hide NodeFindings;
    BaseIsFilled(p);
    SplitIsPercentages(p.uboOwners);
    PlanIdentityClean(p, m);
    PlanOwnersClean(p, m);
    PlanAuthorityClean(p, m);
    PlanUboClean(p, m);
    PlanComplete(p, m);
    Assemble(ToDossier(p), Cfg(m), [], [], [], [], []);
  }

  // ----- identity -----

  lemma A2Isolated(p: Plan, m: EntityMap, alt: string)
    requires IsBase(p) && Reflexive(m) && Digits(alt) && alt != p.taxReg
    ensures Found(InjectA2(p, alt), m) == [CheckFinding(IdentityCheck, A2, Unexplainable)]
  {
    var q := InjectA2(p, alt);
    BaseIsFilled(p);
    DigitsAreInk(alt);
    SplitIsPercentages(p.uboOwners);
    OtherTaxId(q, m);
    hide NodeFindings, ToDossier;
    PlanOwnersClean(q, m);
    PlanAuthorityClean(q, m);
    PlanUboClean(q, m);
    PlanComplete(q, m);
    Assemble(ToDossier(q), Cfg(m), [CheckFinding(IdentityCheck, A2, Unexplainable)], [], [], [], []);
  }

  // One tax id differs and the legal names are equal.
  lemma OtherTaxId(q: Plan, m: EntityMap)
    requires q.hasReg && q.hasCirc && q.hasUbo && q.blank == NoBlank
    requires q.taxReg == q.taxCirc && q.taxUbo != q.taxReg && Digits(q.taxReg) && Digits(q.taxUbo)
    requires q.legalReg == q.legalCirc == q.legalUbo
    ensures NodeFindings(IdentityCheck, ToDossier(q), Cfg(m)) == [CheckFinding(IdentityCheck, A2, Unexplainable)]
  {
    var d := ToDossier(q);
    DigitsAreInk(q.taxReg);
    DigitsAreInk(q.taxUbo);
    assert TaxIds(d)[2] == q.taxUbo && TaxIds(d)[0] == q.taxReg;
    assert AllEqual(LegalNames(d));
  }

  // ----- ownership -----

  lemma OwnershipFinds(d: Dossier, c: Config, code: Code, severity: Severity)
    requires d.registry.Some? && d.ubo.Some?
    requires OwnershipVerdict(Total(d.registry.value.shareholders), Total(d.ubo.value.shareholders),
      d.ubo.value.date > d.registry.value.date,
      DeltaOf(c.emap, d.registry.value.shareholders, d.ubo.value.shareholders)) == Some((code, severity))
    ensures NodeFindings(OwnershipCheck, d, c) == [CheckFinding(OwnershipCheck, code, severity)]
  {}

  function Absorbed(owners: seq<Holder>): seq<Holder>
    requires |owners| >= 2
  {
    owners[..|owners| - 1][0 := Holder(owners[0].name, owners[0].pct + owners[|owners| - 1].pct)]
  }

  lemma AbsorbedShape(owners: seq<Holder>)
    requires IsSplit(owners)
    ensures Total(Absorbed(owners)) == 100.0 && Percentages(Absorbed(owners))
  {
    var a := Absorbed(owners);
    SplitsSumToHundred(owners);
    if |owners| == 2 {
      assert a[1..] == [];
    } else {
      SplitsSumToHundred(a);
    }
  }

  function Gain(pair: (Holder, Holder)): real {
    if pair.1.pct > pair.0.pct then pair.1.pct - pair.0.pct else 0.0
  }

  lemma GainsOfFew(z: seq<(Holder, Holder)>)
    requires 1 <= |z| <= 2
    ensures Gains(z) == Gain(z[0]) + (if |z| == 2 then Gain(z[1]) else 0.0)
  {
    assert |z| == 1 ==> z[1..] == [];
    assert |z| == 2 ==> z[1..][0] == z[1] && z[1..][1..] == [];
  }

  lemma AbsorbedDelta(m: EntityMap, owners: seq<Holder>)
    requires IsSplit(owners) && Reflexive(m)
    ensures var d := DeltaOf(m, owners, Absorbed(owners));
      d.continuing >= 1 && !d.same && d.exitedTotal == d.gained
  {
    var a := Absorbed(owners);
    AlignedMatching(m, owners, a);
    var last := owners[|owners| - 1..];
    assert last[1..] == [] && Total(last) == last[0].pct;
    GainsOfFew(Zip(owners, a));
  }

  // The plan after a transfer, declared on the given date and signed by its first holder.
  function Transferred(p: Plan, date: int, until: int): Plan
    requires |p.regOwners| >= 2
  {
    SignedByFirst(Transfer(p).(uboDate := date), until)
  }

  lemma TransferNodes(p: Plan, m: EntityMap, date: int, until: int)
    requires IsBase(p) && Reflexive(m) && until >= date
    ensures QuietBesideOwnership(Transferred(p, date, until), m)
  {
    var q := Transferred(p, date, until);
    BaseIsFilled(p);
    AbsorbedShape(p.regOwners);
    assert q.uboOwners == Absorbed(p.regOwners);
    PlanIdentityClean(q, m);
    PlanAuthorityClean(q, m);
    PlanUboClean(q, m);
    PlanComplete(q, m);
  }

  function TransferCode(newer: bool): Finding {
    if newer then CheckFinding(OwnershipCheck, B1a, Explainable) else CheckFinding(OwnershipCheck, B1b, Unexplainable)
  }

  lemma TransferVerdict(p: Plan, m: EntityMap, date: int, until: int)
    requires IsBase(p) && Reflexive(m)
    ensures NodeFindings(OwnershipCheck, ToDossier(Transferred(p, date, until)), Cfg(m))
      == [TransferCode(date > p.regDate)]
  {
    hide Absorbed, DeltaOf, Total;
    AbsorbedShape(p.regOwners);
    AbsorbedDelta(m, p.regOwners);
    TransferredOwners(p, date, until);
    OwnershipNode(Transferred(p, date, until), m);
  }

  lemma TransferredOwners(p: Plan, date: int, until: int)
    requires IsBase(p)
    ensures var q := Transferred(p, date, until);
      && q.hasReg && q.hasUbo && q.regOwners == p.regOwners && q.uboOwners == Absorbed(p.regOwners)
      && q.regDate == p.regDate && q.uboDate == date && Total(p.regOwners) == 100.0 && IsSplit(p.regOwners)
  {}

  lemma OwnershipNode(q: Plan, m: EntityMap)
    requires q.hasReg && q.hasUbo
    ensures var v :=
        OwnershipVerdict(Total(q.regOwners), Total(q.uboOwners), q.uboDate > q.regDate,
          DeltaOf(m, q.regOwners, q.uboOwners));
      NodeFindings(OwnershipCheck, ToDossier(q), Cfg(m))
        == if v.None? then [] else [CheckFinding(OwnershipCheck, v.value.0, v.value.1)]
  {
    hide DeltaOf, Total, OwnershipVerdict;
  }

  ghost predicate QuietBesideOwnership(q: Plan, m: EntityMap) {
    && NodeFindings(IdentityCheck, ToDossier(q), Cfg(m)) == []
    && NodeFindings(AuthorityCheck, ToDossier(q), Cfg(m)) == []
    && NodeFindings(UboCheck, ToDossier(q), Cfg(m)) == [] && NodeFindings(CompletenessCheck, ToDossier(q), Cfg(m)) == []
  }

  lemma OnlyOwnership(q: Plan, m: EntityMap, f: Finding)
    requires QuietBesideOwnership(q, m) && NodeFindings(OwnershipCheck, ToDossier(q), Cfg(m)) == [f]
    ensures Found(q, m) == [f]
  {
    Assemble(ToDossier(q), Cfg(m), [], [f], [], [], []);
  }

  lemma TransferFound(p: Plan, m: EntityMap, date: int, until: int)
    requires IsBase(p) && Reflexive(m) && until >= date
    ensures Found(Transferred(p, date, until), m) == [TransferCode(date > p.regDate)]
  {
    TransferNodes(p, m, date, until);
    TransferVerdict(p, m, date, until);
    OnlyOwnership(Transferred(p, date, until), m, TransferCode(date > p.regDate));
  }

  lemma TransferPlans(p: Plan, older: nat)
    requires |p.regOwners| >= 2
    ensures InjectB1a(p) == Transferred(p, p.uboDate, p.uboDate + 900)
    ensures InjectB1b(p, older) == Transferred(p, p.regDate - older, p.regDate + 1200)
  {}

  // A declaration newer than the registry explains the transfer; an older one does not.
  lemma B1Isolated(p: Plan, m: EntityMap, older: nat)
    requires IsBase(p) && Reflexive(m)
    ensures Found(InjectB1a(p), m) == [CheckFinding(OwnershipCheck, B1a, Explainable)]
    ensures Found(InjectB1b(p, older), m) == [CheckFinding(OwnershipCheck, B1b, Unexplainable)]
  {
    hide Found, ToDossier, Transferred;
    TransferPlans(p, older);
    TransferFound(p, m, p.uboDate, p.uboDate + 900);
    TransferFound(p, m, p.regDate - older, p.regDate + 1200);
  }

  lemma ShiftShape(owners: seq<Holder>, delta: real)
    requires IsSplit(owners) && delta >= -8.0
    ensures Total(Shift(owners, delta)) == 100.0 + delta && Separated(Shift(owners, delta))
    ensures forall i :: 0 <= i < |owners| ==> Shift(owners, delta)[i].pct >= 0.0
  {
    SplitsSumToHundred(owners);
    SplitsSumToHundred(Shift(owners, delta));
  }

  lemma ShiftNodes(p: Plan, m: EntityMap, q: Plan)
    requires IsBase(p) && Reflexive(m)
    requires q == p.(regOwners := q.regOwners, uboOwners := q.uboOwners, declared := q.declared)
    requires q.regOwners != []
    ensures NodeFindings(IdentityCheck, ToDossier(q), Cfg(m)) == []
    ensures NodeFindings(AuthorityCheck, ToDossier(q), Cfg(m)) == []
    ensures NodeFindings(CompletenessCheck, ToDossier(q), Cfg(m)) == []
  {
    BaseIsFilled(p);
    PlanIdentityClean(q, m);
    PlanAuthorityClean(q, m);
    PlanComplete(q, m);
  }

  lemma B2aIsolated(p: Plan, m: EntityMap, drop: real)
    requires IsBase(p) && Reflexive(m) && EPS < drop <= 8.0
    ensures Found(InjectB2a(p, drop), m) == [CheckFinding(OwnershipCheck, B2a, Explainable)]
  {
    var q := InjectB2a(p, drop);
    ShiftShape(p.regOwners, -drop);
    ShiftNodes(p, m, q);
    PlanUboClean(q, m);
    OwnershipFinds(ToDossier(q), Cfg(m), B2a, Explainable);
    Assemble(ToDossier(q), Cfg(m), [], [CheckFinding(OwnershipCheck, B2a, Explainable)], [], [], []);
  }

  lemma B2bIsolated(p: Plan, m: EntityMap, add: real)
    requires IsBase(p) && Reflexive(m) && add > EPS
    ensures Found(InjectB2b(p, add), m) == [CheckFinding(OwnershipCheck, B2b, Unexplainable)]
  {
    var q := InjectB2b(p, add);
    var after := q.uboOwners;
    ShiftShape(p.regOwners, add);
    ShiftNodes(p, m, q);
    SplitIsPercentages(p.uboOwners);
    DeclaredIsPossible(p.uboOwners);
    DeclaredCovers(m, p.uboOwners, p.declared);
    assert Covers(m, after, q.declared) by {
      forall i | 0 <= i < |after| && after[i].pct + EPS >= UBO_THRESHOLD_PCT
        ensures exists k :: 0 <= k < |q.declared| && m.samePerson(after[i].name, q.declared[k].name)
      {
        assert p.uboOwners[i].pct + EPS >= UBO_THRESHOLD_PCT && p.uboOwners[i].name == after[i].name;
      }
    }
    UboClean(ToDossier(q), Cfg(m));
    OwnershipFinds(ToDossier(q), Cfg(m), B2b, Unexplainable);
    Assemble(ToDossier(q), Cfg(m), [], [CheckFinding(OwnershipCheck, B2b, Unexplainable)], [], [], []);
  }

  // ----- authority -----

  // Whether a declarant matches some signatory.
  ghost predicate Collides(m: EntityMap, declarant: string, sigs: seq<Signatory>) {
    exists i :: 0 <= i < |sigs| && m.samePerson(declarant, sigs[i].name)
  }

  lemma {:induction false} MatchIsASignatory(m: EntityMap, declarant: string, sigs: seq<Signatory>)
    requires Collides(m, declarant, sigs)
    ensures FirstSignatory(m, declarant, sigs).Some? && FirstSignatory(m, declarant, sigs).value in sigs
  {
    if !m.samePerson(declarant, sigs[0].name) {
      var i :| 0 <= i < |sigs| && m.samePerson(declarant, sigs[i].name);
      assert sigs[1..][i - 1] == sigs[i];
      MatchIsASignatory(m, declarant, sigs[1..]);
    }
  }

  // A declarant outside the circular is found by the age of the circular; one who collides
  // with a signatory still in office is not found at all.
  lemma AuthorityFinds(d: Dossier, c: Config)
    requires d.circular.Some? && d.ubo.Some?
    requires forall i :: 0 <= i < |d.circular.value.signatories| ==>
      d.circular.value.signatories[i].validUntil.Some?
        && d.circular.value.signatories[i].validUntil.value >= d.ubo.value.date
    ensures NodeFindings(AuthorityCheck, d, c)
      == if Collides(c.emap, d.ubo.value.declarant, d.circular.value.signatories) then []
         else if d.ubo.value.date - d.circular.value.date > AUTHORITY_STALENESS_DAYS
           then [CheckFinding(AuthorityCheck, C1a, Explainable)]
         else [CheckFinding(AuthorityCheck, C1b, Unexplainable)]
  {
    if Collides(c.emap, d.ubo.value.declarant, d.circular.value.signatories) {
      MatchIsASignatory(c.emap, d.ubo.value.declarant, d.circular.value.signatories);
    }
  }

  // A base whose circular, registry date, signatories' validity and declarant were replaced.
  lemma AbsentDeclarant(p: Plan, m: EntityMap, q: Plan, sigs: seq<Signatory>)
    requires IsBase(p) && Reflexive(m) && Filled(q.declarant) && sigs == q.signatories && InOffice(sigs, p.uboDate)
    requires q == p.(circDate := q.circDate, regDate := q.regDate, incorporation := q.incorporation,
      signatories := sigs, declarant := q.declarant)
    ensures Found(q, m)
      == if Collides(m, q.declarant, q.signatories) then []
         else if q.uboDate - q.circDate > AUTHORITY_STALENESS_DAYS then [CheckFinding(AuthorityCheck, C1a, Explainable)]
         else [CheckFinding(AuthorityCheck, C1b, Unexplainable)]
  {
    hide NodeFindings, Collides;
    BaseIsFilled(p);
    SplitIsPercentages(p.uboOwners);
    PlanIdentityClean(q, m);
    PlanOwnersClean(q, m);
    PlanUboClean(q, m);
    PlanComplete(q, m);
    AuthorityFinds(ToDossier(q), Cfg(m));
    Assemble(ToDossier(q), Cfg(m), [], [], NodeFindings(AuthorityCheck, ToDossier(q), Cfg(m)), [], []);
  }

  lemma SameNames(m: EntityMap, declarant: string, sigs: seq<Signatory>, until: int)
    ensures Collides(m, declarant, ValidUntil(sigs, until)) <==> Collides(m, declarant, sigs)
  {
    if i :| 0 <= i < |sigs| && m.samePerson(declarant, sigs[i].name) {
      assert m.samePerson(declarant, ValidUntil(sigs, until)[i].name);
    }
  }

  // Isolated exactly when the new declarant matches no signatory; otherwise nothing is found.
  lemma C1aIsolatedIff(p: Plan, m: EntityMap, beyond: nat, before: nat, declarant: string)
    requires IsBase(p) && Reflexive(m) && Filled(declarant) && beyond >= 1
    ensures Found(InjectC1a(p, beyond, before, declarant), m)
      == if Collides(m, declarant, p.signatories) then [] else [CheckFinding(AuthorityCheck, C1a, Explainable)]
  {
    AbsentDeclarant(p, m, InjectC1a(p, beyond, before, declarant), p.signatories);
  }

  ghost predicate InOffice(sigs: seq<Signatory>, date: int) {
    sigs != [] && forall i :: 0 <= i < |sigs| ==> sigs[i].validUntil.Some? && sigs[i].validUntil.value >= date
  }

  lemma ValidUntilInOffice(sigs: seq<Signatory>, until: int, date: int)
    requires sigs != [] && until >= date
    ensures InOffice(ValidUntil(sigs, until), date)
  {}

  lemma C1bIsolatedIff(p: Plan, m: EntityMap, later: nat, declarant: string)
    requires IsBase(p) && Reflexive(m) && Filled(declarant)
    ensures Found(InjectC1b(p, later, declarant), m)
      == if Collides(m, declarant, p.signatories) then [] else [CheckFinding(AuthorityCheck, C1b, Unexplainable)]
  {
    var until := p.uboDate + later + 900;
    SameNames(m, declarant, p.signatories, until);
    ValidUntilInOffice(p.signatories, until, p.uboDate);
    AbsentDeclarant(p, m, InjectC1b(p, later, declarant), ValidUntil(p.signatories, until));
  }

  lemma BoundaryC1aIsolatedIff(p: Plan, m: EntityMap, declarant: string)
    requires IsBase(p) && Reflexive(m) && Filled(declarant)
    ensures Found(BoundaryC1a(p, declarant), m)
      == if Collides(m, declarant, p.signatories) then [] else [CheckFinding(AuthorityCheck, C1a, Explainable)]
  {
    AbsentDeclarant(p, m, BoundaryC1a(p, declarant), p.signatories);
  }

  lemma BoundaryC1bIsolatedIff(p: Plan, m: EntityMap, declarant: string)
    requires IsBase(p) && Reflexive(m) && Filled(declarant)
    ensures Found(BoundaryC1b(p, declarant), m)
      == if Collides(m, declarant, p.signatories) then [] else [CheckFinding(AuthorityCheck, C1b, Unexplainable)]
  {
    var until := p.uboDate + 900;
    SameNames(m, declarant, p.signatories, until);
    ValidUntilInOffice(p.signatories, until, p.uboDate);
    AbsentDeclarant(p, m, BoundaryC1b(p, declarant), ValidUntil(p.signatories, until));
  }

  // The declarant is the first signatory, and his authority ended before the declaration.
  lemma ExpiredDeclarant(q: Plan, m: EntityMap)
    requires q.hasCirc && q.hasUbo && Reflexive(m) && q.signatories != [] && q.signatories[0].name == q.declarant
    requires q.signatories[0].validUntil.Some? && q.signatories[0].validUntil.value < q.uboDate
    ensures NodeFindings(AuthorityCheck, ToDossier(q), Cfg(m)) == [CheckFinding(AuthorityCheck, C2, Explainable)]
  {
    assert FirstSignatory(m, q.declarant, q.signatories) == Some(q.signatories[0]);
  }

  lemma C2Isolated(p: Plan, m: EntityMap, before: nat)
    requires IsBase(p) && Reflexive(m) && before >= 1
    ensures Found(InjectC2(p, before), m) == [CheckFinding(AuthorityCheck, C2, Explainable)]
  {
    hide NodeFindings;
    var q := InjectC2(p, before);
    BaseIsFilled(p);
    SplitIsPercentages(p.uboOwners);
    PlanIdentityClean(q, m);
    PlanOwnersClean(q, m);
    PlanUboClean(q, m);
    PlanComplete(q, m);
    ExpiredDeclarant(q, m);
    Assemble(ToDossier(q), Cfg(m), [], [], [CheckFinding(AuthorityCheck, C2, Explainable)], [], []);
  }

  lemma BoundaryC2Isolated(p: Plan, m: EntityMap)
    requires IsBase(p) && Reflexive(m)
    ensures Found(BoundaryC2(p), m) == [CheckFinding(AuthorityCheck, C2, Explainable)]
  {
    C2Isolated(p, m, 1);
    assert BoundaryC2(p) == InjectC2(p, 1);
  }

  // ----- beneficial owners -----

  lemma {:induction false} UndeclaredJoins(m: EntityMap, a: seq<Holder>, b: seq<Holder>, declared: seq<Holder>)
    ensures UndeclaredFindings(m, a + b, declared)
      == UndeclaredFindings(m, a, declared) + UndeclaredFindings(m, b, declared)
  {
    if a == [] {
      assert a + b == b;
    } else {
      assert (a + b)[0] == a[0] && (a + b)[1..] == a[1..] + b;
      UndeclaredJoins(m, a[1..], b, declared);
    }
  }

  lemma {:induction false} DeclaredJoins(a: seq<Holder>, b: seq<Holder>)
    ensures Declared(a + b) == Declared(a) + Declared(b)
  {
    if a == [] {
      assert a + b == b;
    } else {
      assert (a + b)[0] == a[0] && (a + b)[1..] == a[1..] + b;
      DeclaredJoins(a[1..], b);
    }
  }

  // The last owner the generator must declare, and what stands around them.
  lemma {:induction false} LastRequired(owners: seq<Holder>) returns (pre: seq<Holder>, last: Holder, post: seq<Holder>)
    requires Declared(owners) != []
    ensures owners == pre + [last] + post && Declared(owners) == Declared(pre) + [last] && Declared(post) == []
      && last.pct + 0.001 >= UBO_THRESHOLD_PCT
  {
    var n := |owners| - 1;
    assert owners == owners[..n] + [owners[n]];
    DeclaredJoins(owners[..n], [owners[n]]);
    if owners[n].pct + 0.001 >= UBO_THRESHOLD_PCT {
      pre, last, post := owners[..n], owners[n], [];
    } else {
      pre, last, post := LastRequired(owners[..n]);
      DeclaredJoins(post, [owners[n]]);
      post := post + [owners[n]];
    }
  }

  lemma {:induction false} BelowThresholdFindNothing(m: EntityMap, owners: seq<Holder>, declared: seq<Holder>)
    requires Separated(owners) && Declared(owners) == []
    ensures UndeclaredFindings(m, owners, declared) == []
  {
    if owners != [] {
      BelowThresholdFindNothing(m, owners[1..], declared);
    }
  }

  // Leaving out the last required owner is noticed unless a declared one matches them.
  lemma OmittedOwner(m: EntityMap, pre: seq<Holder>, last: Holder, post: seq<Holder>)
    requires Reflexive(m) && Separated(pre + [last] + post) && Declared(post) == [] && Declared([last]) == [last]
    ensures UndeclaredFindings(m, pre + [last] + post, Declared(pre))
      == if Undeclared(m, last, Declared(pre)) then [CheckFinding(UboCheck, D1a, Explainable)] else []
  {
    var all := pre + [last] + post;
    assert Separated(pre) by { forall i | 0 <= i < |pre| ensures all[i] == pre[i] {} }
    assert Separated(post) by { forall i | 0 <= i < |post| ensures all[|pre| + 1 + i] == post[i] {} }
    UndeclaredJoins(m, pre + [last], post, Declared(pre));
    UndeclaredJoins(m, pre, [last], Declared(pre));
    DeclaredCovers(m, pre, Declared(pre));
    CoveredFindNothing(m, pre, Declared(pre));
    BelowThresholdFindNothing(m, post, Declared(pre));
    assert [last][1..] == [];
  }

  lemma BaseDeclaresTwo(owners: seq<Holder>)
    requires IsSplit(owners)
    ensures |Declared(owners)| >= 2
  {
    assert owners == [owners[0]] + ([owners[1]] + owners[2..]);
    DeclaredJoins([owners[0]], [owners[1]] + owners[2..]);
    DeclaredJoins([owners[1]], owners[2..]);
  }

  lemma {:induction false} PrefixIsPossible(owners: seq<Holder>, n: nat)
    requires Percentages(owners) && n <= |Declared(owners)|
    ensures !Impossible(Declared(owners)[..n])
  {
    DeclaredTotal(owners);
    var all := Declared(owners);
    PartialTotal(all, n);
    forall i | 0 <= i < n ensures 0.0 <= all[..n][i].pct <= 100.0 {
      assert all[..n][i] == all[i];
    }
  }

  lemma {:induction false} PartialTotal(hs: seq<Holder>, n: nat)
    requires n <= |hs| && forall i :: 0 <= i < |hs| ==> hs[i].pct >= 0.0
    ensures 0.0 <= Total(hs[..n]) <= Total(hs)
  {
    if hs != [] {
      if n > 0 {
        assert hs[..n][0] == hs[0] && hs[..n][1..] == hs[1..][..n - 1];
        PartialTotal(hs[1..], n - 1);
      } else {
        PartialTotal(hs[1..], 0);
        assert hs[1..][..0] == [] && hs[..0] == [];
      }
    }
  }

  // A base with only its declaration of beneficial owners replaced.
  lemma OnlyDeclaration(p: Plan, m: EntityMap, declared: seq<Holder>)
    requires IsBase(p) && Reflexive(m)
    ensures Found(p.(declared := declared), m) == CheckUbo(ToDossier(p.(declared := declared)).ubo.value, m)
  {
    hide NodeFindings;
    var q := p.(declared := declared);
    BaseIsFilled(p);
    PlanIdentityClean(q, m);
    PlanOwnersClean(q, m);
    PlanAuthorityClean(q, m);
    PlanComplete(q, m);
    UboNode(q, m);
    Assemble(ToDossier(q), Cfg(m), [], [], [], NodeFindings(UboCheck, ToDossier(q), Cfg(m)), []);
  }

  // Isolated exactly when no remaining declared owner matches the omitted one; otherwise
  // nothing is found.
  lemma D1aIsolatedIff(p: Plan, m: EntityMap, extra: string)
    requires IsBase(p) && Reflexive(m)
    ensures Declared(p.uboOwners) != []
    ensures var required := Declared(p.uboOwners);
      Found(InjectD1a(p, extra), m)
        == if Undeclared(m, required[|required| - 1], required[..|required| - 1])
           then [CheckFinding(UboCheck, D1a, Explainable)] else []
  {
    BaseDeclaresTwo(p.uboOwners);
    SplitIsPercentages(p.uboOwners);
    var pre, last, post := LastRequired(p.uboOwners);
    var required := Declared(p.uboOwners);
    assert required[..|required| - 1] == Declared(pre) && required[|required| - 1] == last;
    PrefixIsPossible(p.uboOwners, |required| - 1);
    LastIsRequired(last);
    OmittedOwner(m, pre, last, post);
    OnlyDeclaration(p, m, Declared(pre));
  }

  lemma LastIsRequired(last: Holder)
    requires last.pct + 0.001 >= UBO_THRESHOLD_PCT
    ensures Declared([last]) == [last]
  {
    assert [last][1..] == [];
  }

  lemma TotalOfTwo(hs: seq<Holder>)
    requires |hs| == 2
    ensures Total(hs) == hs[0].pct + hs[1].pct
  {
    assert hs[1..][0] == hs[1] && hs[1..][1..] == [];
    assert Total(hs[1..]) == hs[1].pct;
  }

  lemma D1bIsolated(p: Plan, m: EntityMap, extra: string)
    requires IsBase(p) && Reflexive(m)
    ensures Found(InjectD1b(p, extra), m) == [CheckFinding(UboCheck, D1b, Unexplainable)]
  {
    BaseDeclaresTwo(p.uboOwners);
    var required := Declared(p.uboOwners);
    var declared := [Holder(required[0].name, 70.0), Holder(required[1].name, 60.0)];
    TotalOfTwo(declared);
    OnlyDeclaration(p, m, declared);
    var q := p.(declared := declared);
    assert InjectD1b(p, extra) == q;
    assert ToDossier(q).ubo.value.declared == declared && Impossible(declared);
    assert CheckUbo(ToDossier(q).ubo.value, m) == [CheckFinding(UboCheck, D1b, Unexplainable)];
  }

  // ----- completeness -----

  lemma E1Isolated(p: Plan, m: EntityMap, which: Document)
    requires IsBase(p) && Reflexive(m)
    ensures Found(InjectE1(p, which), m) == [CheckFinding(CompletenessCheck, E1, Explainable)]
  {
    hide NodeFindings;
    var q := InjectE1(p, which);
    BaseIsFilled(p);
    SplitIsPercentages(p.uboOwners);
    PlanIdentityClean(q, m);
    PlanOwnersClean(q, m);
    PlanAuthorityClean(q, m);
    PlanUboClean(q, m);
    PlanComplete(q, m);
    Assemble(ToDossier(q), Cfg(m), [], [], [], [], [CheckFinding(CompletenessCheck, E1, Explainable)]);
  }

  lemma BlankRegistry(r: Registry)
    requires r.shareholders != [] && (r.taxId == "" || r.legalName == "") && (Filled(r.taxId) || Filled(r.legalName))
    ensures EmptyRegistryFields(Some(r)) == [CheckFinding(CompletenessCheck, E2, Explainable)]
  {}

  lemma BlankCircular(circular: Circular)
    requires circular.signatories != [] && (circular.taxId == "" || Filled(circular.taxId))
    ensures EmptyCircularFields(Some(circular))
      == if circular.taxId == "" then [CheckFinding(CompletenessCheck, E2, Explainable)] else []
  {}

  lemma BlankUbo(ubo: Ubo)
    requires Filled(ubo.declarant) && (ubo.taxId == "" || Filled(ubo.taxId))
    ensures EmptyUboFields(Some(ubo))
      == if ubo.taxId == "" then [CheckFinding(CompletenessCheck, E2, Explainable)] else []
  {}

  lemma NothingMissing<T>(x: T)
    ensures Missing(Some(x)) == []
  {}

  lemma BlankFields(q: Plan)
    requires q.hasReg && q.hasCirc && q.hasUbo && PlanFilled(q.(blank := NoBlank)) && q.blank != NoBlank
    ensures var e2 := CheckFinding(CompletenessCheck, E2, Explainable);
      CheckCompleteness(ToDossier(q)) == if q.blank == BlankTaxId then [e2, e2, e2] else [e2]
  {
    hide Missing, EmptyRegistryFields, EmptyCircularFields, EmptyUboFields, Filled;
    var d := ToDossier(q);
    NothingMissing(d.registry.value);
    NothingMissing(d.circular.value);
    NothingMissing(d.ubo.value);
    BlankRegistry(d.registry.value);
    BlankCircular(d.circular.value);
    BlankUbo(d.ubo.value);
    EmptyIsNotFilled(q.taxCirc);
    EmptyIsNotFilled(q.taxUbo);
  }

  lemma EmptyIsNotFilled(t: string)
    ensures Filled(t) ==> t != ""
  {}

  // A blank tax id is reported once per document, a blank legal name once.
  lemma E2Isolated(p: Plan, m: EntityMap, blank: Blank)
    requires IsBase(p) && Reflexive(m) && blank != NoBlank
    ensures var e2 := CheckFinding(CompletenessCheck, E2, Explainable);
      Found(InjectE2(p, blank), m) == if blank == BlankTaxId then [e2, e2, e2] else [e2]
  {
    hide NodeFindings;
    var q := InjectE2(p, blank);
    var e2 := CheckFinding(CompletenessCheck, E2, Explainable);
    BaseIsFilled(p);
    assert q.(blank := NoBlank) == p;
    SplitIsPercentages(p.uboOwners);
    PlanIdentityClean(q, m);
    PlanOwnersClean(q, m);
    PlanAuthorityClean(q, m);
    PlanUboClean(q, m);
    BlankFields(q);
    CompletenessNode(q, m);
    Assemble(ToDossier(q), Cfg(m), [], [], [], [], if blank == BlankTaxId then [e2, e2, e2] else [e2]);
  }

  // ----- the threshold -----

  lemma LeadNodes(p: Plan, m: EntityMap, leadPct: real, other: string, otherPct: real)
    requires IsBase(p) && Reflexive(m) && leadPct + otherPct == 100.0 && 0.0 <= leadPct <= 100.0
    ensures Found(LeadAnd(p, leadPct, other, otherPct), m)
      == CheckUbo(ToDossier(LeadAnd(p, leadPct, other, otherPct)).ubo.value, m)
  {
    hide NodeFindings;
    var q := LeadAnd(p, leadPct, other, otherPct);
    BaseIsFilled(p);
    SplitsSumToHundred(q.regOwners);
    PlanIdentityClean(q, m);
    PlanOwnersClean(q, m);
    PlanAuthorityClean(q, m);
    PlanComplete(q, m);
    UboNode(q, m);
    Assemble(ToDossier(q), Cfg(m), [], [], [], NodeFindings(UboCheck, ToDossier(q), Cfg(m)), []);
  }

  lemma LeadIsDeclared(m: EntityMap, lead: Holder, other: Holder)
    requires Reflexive(m) && 0.0 <= lead.pct <= 100.0
    ensures !Impossible([lead])
    ensures UndeclaredFindings(m, [lead, other], [lead])
      == if Undeclared(m, other, [lead]) then [CheckFinding(UboCheck, D1a, Explainable)] else []
  {
    assert [lead][1..] == [] && Total([lead]) == lead.pct;
    assert [lead, other][1..] == [other] && [other][1..] == [];
    assert m.samePerson(lead.name, [lead][0].name) && !Undeclared(m, lead, [lead]);
    assert UndeclaredFindings(m, [other], [lead])
      == if Undeclared(m, other, [lead]) then [CheckFinding(UboCheck, D1a, Explainable)] else [];
  }

  // A holder just under the threshold need not be declared.
  lemma BoundaryNoneIsClean(p: Plan, m: EntityMap, other: string)
    requires IsBase(p) && Reflexive(m)
    ensures Found(BoundaryNone(p, other), m) == []
  {
    LeadNodes(p, m, 75.1, other, 24.9);
    LeadIsDeclared(m, Holder(p.uboOwners[0].name, 75.1), Holder(other, 24.9));
  }

  // A holder at exactly the threshold must be, and is missed only by matching the lead.
  lemma BoundaryD1aIsolatedIff(p: Plan, m: EntityMap, other: string)
    requires IsBase(p) && Reflexive(m)
    ensures Found(BoundaryD1a(p, other), m)
      == if m.samePerson(other, p.uboOwners[0].name) then [] else [CheckFinding(UboCheck, D1a, Explainable)]
  {
    LeadNodes(p, m, 75.0, other, 25.0);
    LeadIsDeclared(m, Holder(p.uboOwners[0].name, 75.0), Holder(other, 25.0));
  }
}
