/** What each deterministic check finds, in terms of the documents alone: when it is silent, which
    code it gives, and how often. */
module CheckMeanings {
  import opened Contracts
  import opened Reals
  import opened Checks
  import Ownership
  import Turkish

  // ----- identity -----

  // Two of the documents present carry different tax ids, up to outer whitespace.
  ghost predicate TaxIdsDiffer(d: Dossier) {
    || (d.registry.Some? && d.circular.Some?
        && Turkish.Strip(d.registry.value.taxId) != Turkish.Strip(d.circular.value.taxId))
    || (d.registry.Some? && d.ubo.Some? && Turkish.Strip(d.registry.value.taxId) != Turkish.Strip(d.ubo.value.taxId))
    || (d.circular.Some? && d.ubo.Some? && Turkish.Strip(d.circular.value.taxId) != Turkish.Strip(d.ubo.value.taxId))
  }

  ghost predicate LegalNamesDiffer(d: Dossier) {
    || (d.registry.Some? && d.circular.Some? && d.registry.value.legalName != d.circular.value.legalName)
    || (d.registry.Some? && d.ubo.Some? && d.registry.value.legalName != d.ubo.value.legalName)
    || (d.circular.Some? && d.ubo.Some? && d.circular.value.legalName != d.ubo.value.legalName)
  }

  // Every legal name is the same entity as that of the first document present.
  ghost predicate OneEntity(d: Dossier, m: EntityMap) {
    && (d.registry.Some? ==>
          var first := d.registry.value.legalName;
          && m.sameLegal(first, first) && (d.circular.Some? ==> m.sameLegal(first, d.circular.value.legalName))
          && (d.ubo.Some? ==> m.sameLegal(first, d.ubo.value.legalName)))
    && (d.registry.None? && d.circular.Some? ==>
          var first := d.circular.value.legalName;
          m.sameLegal(first, first) && (d.ubo.Some? ==> m.sameLegal(first, d.ubo.value.legalName)))
  }

  function Listed(a: Option<string>, b: Option<string>, c: Option<string>): seq<string> {
    (if a.Some? then [a.value] else []) + (if b.Some? then [b.value] else []) + (if c.Some? then [c.value] else [])
  }

  predicate Differ(a: Option<string>, b: Option<string>) {
    a.Some? && b.Some? && a != b
  }

  lemma ListedAlike(a: Option<string>, b: Option<string>, c: Option<string>)
    ensures AllEqual(Listed(a, b, c)) <==> !(Differ(a, b) || Differ(a, c) || Differ(b, c))
  {
    var xs := Listed(a, b, c);
    if a.Some? {
      assert xs[0] == a.value;
      if b.Some? { assert xs[1] == b.value; }
      if c.Some? { assert xs[|xs| - 1] == c.value; }
    } else if b.Some? {
      assert xs[0] == b.value;
      if c.Some? { assert xs[1] == c.value; }
    }
  }

  lemma ListedLikeFirst(a: Option<string>, b: Option<string>, c: Option<string>, m: EntityMap)
    requires a.Some? || b.Some?
    ensures var (xs, first) := (Listed(a, b, c), if a.Some? then a.value else b.value);
      (forall i :: 0 <= i < |xs| ==> m.sameLegal(xs[0], xs[i]))
      <==> m.sameLegal(first, first) && (a.Some? && b.Some? ==> m.sameLegal(first, b.value))
           && (c.Some? ==> m.sameLegal(first, c.value))
  {
    var xs := Listed(a, b, c);
    if a.Some? {
      assert xs[0] == a.value;
      if b.Some? { assert xs[1] == b.value; }
    } else {
      assert xs[0] == b.value;
    }
    if c.Some? { assert xs[|xs| - 1] == c.value; }
  }

  lemma TaxIdsDisagreeIff(d: Dossier)
    ensures AllEqual(TaxIds(d)) <==> !TaxIdsDiffer(d)
  {
    hide Turkish.Strip, AllEqual;
    ListedAlike(if d.registry.Some? then Some(Turkish.Strip(d.registry.value.taxId)) else None,
      if d.circular.Some? then Some(Turkish.Strip(d.circular.value.taxId)) else None,
      if d.ubo.Some? then Some(Turkish.Strip(d.ubo.value.taxId)) else None);
  }

  lemma LegalNamesDisagreeIff(d: Dossier)
    ensures AllEqual(LegalNames(d)) <==> !LegalNamesDiffer(d)
  {
    hide AllEqual;
    ListedAlike(if d.registry.Some? then Some(d.registry.value.legalName) else None,
      if d.circular.Some? then Some(d.circular.value.legalName) else None,
      if d.ubo.Some? then Some(d.ubo.value.legalName) else None);
  }

  lemma OneEntityIff(d: Dossier, m: EntityMap)
    requires LegalNamesDiffer(d)
    ensures var names := LegalNames(d);
      (forall i :: 0 <= i < |names| ==> m.sameLegal(names[0], names[i])) <==> OneEntity(d, m)
  {
    var a := if d.registry.Some? then Some(d.registry.value.legalName) else None;
    var b := if d.circular.Some? then Some(d.circular.value.legalName) else None;
    var c := if d.ubo.Some? then Some(d.ubo.value.legalName) else None;
    ListedLikeFirst(a, b, c, m);
    assert LegalNames(d) == Listed(a, b, c);
  }

  // A2 exactly when two tax ids differ, then A1 exactly when two legal names differ and all are one
  // entity; nothing else.
  lemma IdentityMeans(d: Dossier, m: EntityMap)
    ensures CheckIdentity(d, m)
      == (if TaxIdsDiffer(d) then [Finding(IdentityCheck, A2, Unexplainable, Deterministic, None, "", [])] else [])
         + (if LegalNamesDiffer(d) && OneEntity(d, m)
            then [Finding(IdentityCheck, A1, Info, Deterministic, None, "", [])] else [])
  {
    hide AllEqual, LegalNames, TaxIds, TaxIdsDiffer, LegalNamesDiffer, OneEntity;
    TaxIdsDisagreeIff(d);
    LegalNamesDisagreeIff(d);
    if LegalNamesDiffer(d) {
      OneEntityIff(d, m);
    }
  }

  // ----- ownership -----

  ghost predicate SumsToHundred(hs: seq<Holder>) {
    99.99 <= Total(hs) <= 100.01
  }

  // The verdict as a finding: nothing when nothing changed, B2b for a sum above its tolerance, B2a
  // for one below, B1a for an explainable transfer, B1b for every other change.
  lemma OwnershipMeans(registry: Registry, ubo: Ubo, m: EntityMap)
    ensures var (s1, s3, fs) := (registry.shareholders, ubo.shareholders, CheckOwnership(registry, ubo, m));
      && (fs == [Finding(OwnershipCheck, B2b, Unexplainable, Deterministic, None, "", [])]
          <==> Total(s1) > 100.01 || Total(s3) > 100.01)
      && (fs == [Finding(OwnershipCheck, B2a, Explainable, Deterministic, None, "", [])]
          <==> Total(s1) <= 100.01 && Total(s3) <= 100.01 && (Total(s1) < 99.99 || Total(s3) < 99.99))
      && (fs == [] <==> SumsToHundred(s1) && SumsToHundred(s3) && !Ownership.Changed(m, s1, s3))
      && (fs == [Finding(OwnershipCheck, B1a, Explainable, Deterministic, None, "", [])] <==>
            && ubo.date > registry.date && SumsToHundred(s1) && SumsToHundred(s3)
            && (exists a, b :: a in s1 && b in s3 && m.samePerson(a.name, b.name))
            && Abs(Total(s1) - Total(s3) - Ownership.Losses(MatchFrom(m, s1, s3, {}).pairs)) < 0.01
            && Ownership.Changed(m, s1, s3))
      && (fs == [Finding(OwnershipCheck, B1b, Unexplainable, Deterministic, None, "", [])] <==>
            && SumsToHundred(s1) && SumsToHundred(s3) && Ownership.Changed(m, s1, s3)
            && fs != [Finding(OwnershipCheck, B1a, Explainable, Deterministic, None, "", [])])
  {
    hide MatchFrom, Ownership.Losses, Ownership.Changed, Total, DeltaOf, OwnershipVerdict;
    Ownership.TransferIff(m, registry.shareholders, ubo.shareholders, ubo.date > registry.date);
    Ownership.OtherVerdictsIff(m, registry.shareholders, ubo.shareholders, ubo.date > registry.date);
  }

  // ----- authority -----

  // The declarant's authority is that of the first signatory of the same name: C2 when it expired
  // before the declaration. Without one: C1a when the circular is more than a year older than the
  // declaration, C1b otherwise.
  lemma AuthorityMeans(circular: Circular, ubo: Ubo, m: EntityMap, i: nat)
    requires forall k :: 0 <= k < i <= |circular.signatories| ==>
      !m.samePerson(ubo.declarant, circular.signatories[k].name)
    requires i < |circular.signatories| ==> m.samePerson(ubo.declarant, circular.signatories[i].name)
    requires i <= |circular.signatories|
    ensures CheckAuthority(circular, ubo, m) ==
      if i < |circular.signatories| then
        if circular.signatories[i].validUntil.Some? && circular.signatories[i].validUntil.value < ubo.date then
          [Finding(AuthorityCheck, C2, Explainable, Deterministic, None, "", [])]
        else []
      else if ubo.date - circular.date > 365 then
        [Finding(AuthorityCheck, C1a, Explainable, Deterministic, None, "", [])]
      else [Finding(AuthorityCheck, C1b, Unexplainable, Deterministic, None, "", [])]
  {
    FirstSignatoryAt(m, ubo.declarant, circular.signatories, i);
  }

  lemma {:induction false} FirstSignatoryAt(m: EntityMap, declarant: string, sigs: seq<Signatory>, i: nat)
    requires i <= |sigs| && forall k :: 0 <= k < i ==> !m.samePerson(declarant, sigs[k].name)
    requires i < |sigs| ==> m.samePerson(declarant, sigs[i].name)
    ensures FirstSignatory(m, declarant, sigs) == if i < |sigs| then Some(sigs[i]) else None
  {
    if i > 0 {
      FirstSignatoryAt(m, declarant, sigs[1..], i - 1);
    }
  }

  // ----- beneficial owners -----

  // The holders from a position on that must be declared and are not.
  ghost function Omitted(m: EntityMap, holders: seq<Holder>, declared: seq<Holder>, from: nat): set<int> {
    set i | from <= i < |holders| && holders[i].pct >= 24.99
      && forall k :: 0 <= k < |declared| ==> !m.samePerson(holders[i].name, declared[k].name)
  }

  lemma {:induction false} OmittedAreFound(m: EntityMap, holders: seq<Holder>, declared: seq<Holder>, from: nat)
    requires from <= |holders|
    ensures var fs := UndeclaredFindings(m, holders[from..], declared);
      && |fs| == |Omitted(m, holders, declared, from)|
      && forall f :: f in fs ==> f == Finding(UboCheck, D1a, Explainable, Deterministic, None, "", [])
    decreases |holders| - from
  {
    hide Omitted;
    if from == |holders| {
      NoneOmitted(m, holders, declared);
    } else {
      OmittedAreFound(m, holders, declared, from + 1);
      OneOmitted(m, holders, declared, from);
      assert holders[from..][1..] == holders[from + 1..];
    }
  }

  lemma NoneOmitted(m: EntityMap, holders: seq<Holder>, declared: seq<Holder>)
    ensures Omitted(m, holders, declared, |holders|) == {}
  {}

  lemma OneOmitted(m: EntityMap, holders: seq<Holder>, declared: seq<Holder>, from: nat)
    requires from < |holders|
    ensures |Omitted(m, holders, declared, from)|
      == |Omitted(m, holders, declared, from + 1)| + if Undeclared(m, holders[from], declared) then 1 else 0
  {
    var later, here := Omitted(m, holders, declared, from + 1), if Undeclared(m, holders[from], declared) then {from}
      else {};
    assert Omitted(m, holders, declared, from) == later + here && later !! here;
  }

  // D1b alone for declared percentages that are impossible; otherwise one D1a for every holder of a
  // quarter or more that no declared owner matches.
  lemma UboMeans(ubo: Ubo, m: EntityMap)
    ensures (Total(ubo.declared) > 100.01
      || exists i :: 0 <= i < |ubo.declared| && (ubo.declared[i].pct < -0.01 || ubo.declared[i].pct > 100.01))
      <==> CheckUbo(ubo, m) == [Finding(UboCheck, D1b, Unexplainable, Deterministic, None, "", [])]
    ensures CheckUbo(ubo, m) != [Finding(UboCheck, D1b, Unexplainable, Deterministic, None, "", [])] ==>
      && |CheckUbo(ubo, m)| == |Omitted(m, ubo.shareholders, ubo.declared, 0)|
      && forall f :: f in CheckUbo(ubo, m) ==> f == Finding(UboCheck, D1a, Explainable, Deterministic, None, "", [])
  {
    hide UndeclaredFindings, Omitted, Total;
    OmittedAreFound(m, ubo.shareholders, ubo.declared, 0);
    assert ubo.shareholders[0..] == ubo.shareholders;
    var fs := UndeclaredFindings(m, ubo.shareholders, ubo.declared);
    if fs != [] {
      assert fs[0] in fs;
    }
  }

  // ----- completeness -----

  function Number(b: bool): nat {
    if b then 1 else 0
  }

  predicate Blank(t: string) {
    Turkish.Strip(t) == ""
  }

  function Absent(d: Dossier): nat {
    Number(d.registry.None?) + Number(d.circular.None?) + Number(d.ubo.None?)
  }

  function BlankInRegistry(r: Registry): nat {
    Number(Blank(r.taxId)) + Number(Blank(r.legalName)) + Number(r.shareholders == [])
  }

  function BlankInCircular(c: Circular): nat {
    Number(Blank(c.taxId)) + Number(c.signatories == [])
  }

  function BlankInUbo(u: Ubo): nat {
    Number(Blank(u.taxId)) + Number(Blank(u.declarant))
  }

  function BlankFields(d: Dossier): nat {
    (if d.registry.Some? then BlankInRegistry(d.registry.value) else 0)
    + (if d.circular.Some? then BlankInCircular(d.circular.value) else 0)
    + if d.ubo.Some? then BlankInUbo(d.ubo.value) else 0
  }

  ghost predicate AllCode(fs: seq<Finding>, code: Code, n: nat) {
    |fs| == n
    && forall i :: 0 <= i < n ==> fs[i] == Finding(CompletenessCheck, code, Explainable, Deterministic, None, "", [])
  }

  lemma AllCodeJoins(a: seq<Finding>, b: seq<Finding>, code: Code, n: nat, k: nat)
    requires AllCode(a, code, n) && AllCode(b, code, k)
    ensures AllCode(a + b, code, n + k)
  {}

  lemma FlagMeans(p: bool)
    ensures AllCode(FlagEmpty(p), E2, Number(!p))
  {}

  lemma AbsentMeans(d: Dossier)
    ensures AllCode(Missing(d.registry) + Missing(d.circular) + Missing(d.ubo), E1, Absent(d))
  {
    AllCodeJoins(Missing(d.registry), Missing(d.circular), E1, Number(d.registry.None?), Number(d.circular.None?));
    AllCodeJoins(Missing(d.registry) + Missing(d.circular), Missing(d.ubo), E1,
      Number(d.registry.None?) + Number(d.circular.None?), Number(d.ubo.None?));
  }

  lemma TwoFlags(p: bool, q: bool)
    ensures AllCode(FlagEmpty(p) + FlagEmpty(q), E2, Number(!p) + Number(!q))
  {
    FlagMeans(p);
    FlagMeans(q);
    AllCodeJoins(FlagEmpty(p), FlagEmpty(q), E2, Number(!p), Number(!q));
  }

  lemma BlankMeans(d: Dossier)
    ensures AllCode(EmptyRegistryFields(d.registry), E2,
      if d.registry.Some? then BlankInRegistry(d.registry.value) else 0)
    ensures AllCode(EmptyCircularFields(d.circular), E2,
      if d.circular.Some? then BlankInCircular(d.circular.value) else 0)
    ensures AllCode(EmptyUboFields(d.ubo), E2, if d.ubo.Some? then BlankInUbo(d.ubo.value) else 0)
  {
    hide FlagEmpty, Turkish.Strip, AllCode;
    NoFindings(E2);
    if d.registry.Some? {
      var r := d.registry.value;
      TwoFlags(Filled(r.taxId), Filled(r.legalName));
      FlagMeans(r.shareholders != []);
      AllCodeJoins(FlagEmpty(Filled(r.taxId)) + FlagEmpty(Filled(r.legalName)), FlagEmpty(r.shareholders != []), E2,
        Number(Blank(r.taxId)) + Number(Blank(r.legalName)), Number(r.shareholders == []));
    }
    if d.circular.Some? {
      TwoFlags(Filled(d.circular.value.taxId), d.circular.value.signatories != []);
    }
    if d.ubo.Some? {
      TwoFlags(Filled(d.ubo.value.taxId), Filled(d.ubo.value.declarant));
    }
  }

  lemma NoFindings(code: Code)
    ensures AllCode([], code, 0)
  {}

  // One E1 for every missing document, then one E2 for every blank mandatory field.
  lemma CompletenessMeans(d: Dossier) returns (absent: seq<Finding>, blank: seq<Finding>)
    ensures CheckCompleteness(d) == absent + blank
    ensures AllCode(absent, E1, Absent(d)) && AllCode(blank, E2, BlankFields(d))
  {
    hide Missing, EmptyRegistryFields, EmptyCircularFields, EmptyUboFields, AllCode, BlankInRegistry, BlankInCircular,
      BlankInUbo;
    AbsentMeans(d);
    BlankMeans(d);
    absent := Missing(d.registry) + Missing(d.circular) + Missing(d.ubo);
    var r, c, u := EmptyRegistryFields(d.registry), EmptyCircularFields(d.circular), EmptyUboFields(d.ubo);
    blank := r + c + u;
    AllCodeJoins(r, c, E2, if d.registry.Some? then BlankInRegistry(d.registry.value) else 0,
      if d.circular.Some? then BlankInCircular(d.circular.value) else 0);
    AllCodeJoins(r + c, u, E2, (if d.registry.Some? then BlankInRegistry(d.registry.value) else 0)
      + (if d.circular.Some? then BlankInCircular(d.circular.value) else 0),
      if d.ubo.Some? then BlankInUbo(d.ubo.value) else 0);
    assert absent + r + c + u == absent + (r + c + u);
  }
}
