/** The deterministic checks. Each returns its findings; whether it may run is the graph's
    decision. Names are compared only through the entity map. */
module Checks {
  import opened Contracts
  import opened Reals
  import Turkish

  const EPS := 0.01
  const UBO_THRESHOLD_PCT := 25.0
  const AUTHORITY_STALENESS_DAYS := 365

  // ----- identity -----

  function Present<T>(o: Option<T>): nat {
    if o.Some? then 1 else 0
  }

  function LegalNames(d: Dossier): seq<string> {
    (if d.registry.Some? then [d.registry.value.legalName] else [])
    + (if d.circular.Some? then [d.circular.value.legalName] else [])
    + (if d.ubo.Some? then [d.ubo.value.legalName] else [])
  }

  function TaxIds(d: Dossier): seq<string> {
    (if d.registry.Some? then [Turkish.Strip(d.registry.value.taxId)] else [])
    + (if d.circular.Some? then [Turkish.Strip(d.circular.value.taxId)] else [])
    + (if d.ubo.Some? then [Turkish.Strip(d.ubo.value.taxId)] else [])
  }

  predicate AllEqual(xs: seq<string>) {
    forall i :: 0 <= i < |xs| ==> xs[i] == xs[0]
  }

  function CheckIdentity(d: Dossier, m: EntityMap): seq<Finding> {
    var names := LegalNames(d);
    (if AllEqual(TaxIds(d)) then [] else [CheckFinding(IdentityCheck, A2, Unexplainable)])
    + (if !AllEqual(names) && forall i :: 0 <= i < |names| ==> m.sameLegal(names[0], names[i])
       then [CheckFinding(IdentityCheck, A1, Info)] else [])
  }

  // ----- ownership: the greedy matcher -----

  // The first registry-side match among the declaration's holders not yet taken.
  function FirstUnused(m: EntityMap, name: string, s3: seq<Holder>, used: set<nat>, j: nat): (r: Option<nat>)
    ensures r.Some? ==> j <= r.value < |s3| && r.value !in used && m.samePerson(name, s3[r.value].name)
    ensures forall k :: j <= k < (if r.Some? then r.value else |s3|) && k !in used ==> !m.samePerson(name, s3[k].name)
    decreases |s3| - j
  {
    if j >= |s3| then None
    else if j !in used && m.samePerson(name, s3[j].name) then Some(j)
    else FirstUnused(m, name, s3, used, j + 1)
  }

  // continuing pairs, exited holders, and the indices of the other list that are taken
  datatype Matching = Matching(pairs: seq<(Holder, Holder)>, exited: seq<Holder>, used: set<nat>)

  function MatchFrom(m: EntityMap, s1: seq<Holder>, s3: seq<Holder>, used: set<nat>): Matching {
    if s1 == [] then Matching([], [], used)
    else match FirstUnused(m, s1[0].name, s3, used, 0)
      case None =>
        var rest := MatchFrom(m, s1[1..], s3, used);
        Matching(rest.pairs, [s1[0]] + rest.exited, rest.used)
      case Some(j) =>
        var rest := MatchFrom(m, s1[1..], s3, used + {j});
        Matching([(s1[0], s3[j])] + rest.pairs, rest.exited, rest.used)
  }

  function NewHolders(s3: seq<Holder>, used: set<nat>, j: nat): seq<Holder>
    decreases |s3| - j
  {
    if j >= |s3| then []
    else if j in used then NewHolders(s3, used, j + 1)
    else [s3[j]] + NewHolders(s3, used, j + 1)
  }

  // _match_shareholders
  method MatchShareholders(m: EntityMap, s1: seq<Holder>, s3: seq<Holder>)
    returns (continuing: seq<(Holder, Holder)>, exited: seq<Holder>, fresh_: seq<Holder>)
    ensures var r := MatchFrom(m, s1, s3, {});
      continuing == r.pairs && exited == r.exited && fresh_ == NewHolders(s3, r.used, 0)
  {
    var used: set<nat> := {};
    continuing, exited := [], [];
    for i := 0 to |s1|
      invariant var rest := MatchFrom(m, s1[i..], s3, used);
        MatchFrom(m, s1, s3, {}) == Matching(continuing + rest.pairs, exited + rest.exited, rest.used)
    {
      var a := s1[i];
      assert s1[i..][0] == a && s1[i..][1..] == s1[i + 1..];
      var j := 0;
      while j < |s3| && (j in used || !m.samePerson(a.name, s3[j].name))
        invariant j <= |s3|
        invariant FirstUnused(m, a.name, s3, used, 0) == FirstUnused(m, a.name, s3, used, j)
      {
        j := j + 1;
      }
      if j == |s3| {
        exited := exited + [a];
      } else {
        used := used + {j};
        continuing := continuing + [(a, s3[j])];
      }
    }
    fresh_ := [];
    for j := 0 to |s3|
      invariant NewHolders(s3, used, 0) == fresh_ + NewHolders(s3, used, j)
    {
      if j !in used {
        fresh_ := fresh_ + [s3[j]];
      }
    }
  }

  // ----- ownership: the verdict -----

  function Gains(pairs: seq<(Holder, Holder)>): real {
    if pairs == [] then 0.0
    else (if pairs[0].1.pct > pairs[0].0.pct then pairs[0].1.pct - pairs[0].0.pct else 0.0) + Gains(pairs[1..])
  }

  predicate Unchanged(pairs: seq<(Holder, Holder)>) {
    forall i :: 0 <= i < |pairs| ==> Abs(pairs[i].0.pct - pairs[i].1.pct) < EPS
  }

  // How one list became the other, as far as the verdict looks.
  datatype Delta = Delta(continuing: nat, same: bool, exitedTotal: real, gained: real)

  function DeltaOf(m: EntityMap, s1: seq<Holder>, s3: seq<Holder>): Delta {
    var r := MatchFrom(m, s1, s3, {});
    var fresh_ := NewHolders(s3, r.used, 0);
    Delta(|r.pairs|, r.exited == [] && fresh_ == [] && Unchanged(r.pairs),
      Total(r.exited), Gains(r.pairs) + Total(fresh_))
  }

  function OwnershipVerdict(sum1: real, sum3: real, newer: bool, d: Delta): Option<(Code, Severity)> {
    if sum1 > 100.0 + EPS || sum3 > 100.0 + EPS then Some((B2b, Unexplainable))
    else if sum1 < 100.0 - EPS || sum3 < 100.0 - EPS then Some((B2a, Explainable))
    else if d.same then None
    else if newer && d.continuing >= 1 && Abs(d.exitedTotal - d.gained) < EPS then Some((B1a, Explainable))
    else Some((B1b, Unexplainable))
  }

  function CheckOwnership(registry: Registry, ubo: Ubo, m: EntityMap): seq<Finding> {
    var s1, s3 := registry.shareholders, ubo.shareholders;
    match OwnershipVerdict(Total(s1), Total(s3), ubo.date > registry.date, DeltaOf(m, s1, s3))
    case None => []
    case Some((code, severity)) => [CheckFinding(OwnershipCheck, code, severity)]
  }

  // ----- authority -----

  function FirstSignatory(m: EntityMap, declarant: string, sigs: seq<Signatory>): (r: Option<Signatory>)
    ensures r.None? <==> forall i :: 0 <= i < |sigs| ==> !m.samePerson(declarant, sigs[i].name)
  {
    if sigs == [] then None
    else if m.samePerson(declarant, sigs[0].name) then Some(sigs[0])
    else
      var r := FirstSignatory(m, declarant, sigs[1..]);
      assert forall i :: 0 < i < |sigs| ==> sigs[i] == sigs[1..][i - 1];
      r
  }

  function CheckAuthority(circular: Circular, ubo: Ubo, m: EntityMap): seq<Finding> {
    match FirstSignatory(m, ubo.declarant, circular.signatories)
    case Some(s) =>
      if s.validUntil.Some? && s.validUntil.value < ubo.date
      then [CheckFinding(AuthorityCheck, C2, Explainable)] else []
    case None =>
      if ubo.date - circular.date > AUTHORITY_STALENESS_DAYS
      then [CheckFinding(AuthorityCheck, C1a, Explainable)]
      else [CheckFinding(AuthorityCheck, C1b, Unexplainable)]
  }

  // ----- beneficial owners -----

  predicate Impossible(declared: seq<Holder>) {
    Total(declared) > 100.0 + EPS
    || exists i :: 0 <= i < |declared| && (declared[i].pct < -EPS || declared[i].pct > 100.0 + EPS)
  }

  predicate Undeclared(m: EntityMap, sh: Holder, declared: seq<Holder>) {
    sh.pct + EPS >= UBO_THRESHOLD_PCT
    && forall i :: 0 <= i < |declared| ==> !m.samePerson(sh.name, declared[i].name)
  }

  function UndeclaredFindings(m: EntityMap, holders: seq<Holder>, declared: seq<Holder>): seq<Finding> {
    if holders == [] then []
    else if Undeclared(m, holders[0], declared) then
      [CheckFinding(UboCheck, D1a, Explainable)] + UndeclaredFindings(m, holders[1..], declared)
    else UndeclaredFindings(m, holders[1..], declared)
  }

  // The specification of check_ubo_derivation.
  function CheckUbo(ubo: Ubo, m: EntityMap): seq<Finding> {
    if Impossible(ubo.declared) then [CheckFinding(UboCheck, D1b, Unexplainable)]
    else UndeclaredFindings(m, ubo.shareholders, ubo.declared)
  }

  method CheckUboDerivation(ubo: Ubo, m: EntityMap) returns (findings: seq<Finding>)
    ensures findings == CheckUbo(ubo, m)
  {
    if Impossible(ubo.declared) {
      return [CheckFinding(UboCheck, D1b, Unexplainable)];
    }
    findings := [];
    var hs := ubo.shareholders;
    for i := 0 to |hs|
      invariant findings + UndeclaredFindings(m, hs[i..], ubo.declared) == CheckUbo(ubo, m)
    {
      assert hs[i..][1..] == hs[i + 1..];
      if hs[i].pct + EPS < UBO_THRESHOLD_PCT {
        continue;
      }
      if Undeclared(m, hs[i], ubo.declared) {
        findings := findings + [CheckFinding(UboCheck, D1a, Explainable)];
      }
    }
  }

  // ----- completeness -----

  function Missing<T>(o: Option<T>): seq<Finding> {
    if o.None? then [CheckFinding(CompletenessCheck, E1, Explainable)] else []
  }

  function FlagEmpty(present: bool): seq<Finding> {
    if present then [] else [CheckFinding(CompletenessCheck, E2, Explainable)]
  }

  predicate Filled(s: string) {
    Turkish.Strip(s) != ""
  }

  function EmptyRegistryFields(o: Option<Registry>): seq<Finding> {
    match o
    case None => []
    case Some(r) => FlagEmpty(Filled(r.taxId)) + FlagEmpty(Filled(r.legalName)) + FlagEmpty(r.shareholders != [])
  }

  function EmptyCircularFields(o: Option<Circular>): seq<Finding> {
    match o
    case None => []
    case Some(c) => FlagEmpty(Filled(c.taxId)) + FlagEmpty(c.signatories != [])
  }

  function EmptyUboFields(o: Option<Ubo>): seq<Finding> {
    match o
    case None => []
    case Some(u) => FlagEmpty(Filled(u.taxId)) + FlagEmpty(Filled(u.declarant))
  }

  function CheckCompleteness(d: Dossier): seq<Finding> {
    Missing(d.registry) + Missing(d.circular) + Missing(d.ubo)
    + EmptyRegistryFields(d.registry) + EmptyCircularFields(d.circular) + EmptyUboFields(d.ubo)
  }
}
