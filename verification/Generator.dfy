/** The synthetic dossier generator: a clean base and one injector per taxonomy code.

    `Plan` is the value of a blueprint. Every injector is a function from plans to plans, with
    the random choices as arguments, and a method that edits a `Blueprint` in place to the same
    effect. */
module Generator {
  import opened Contracts
  import Calendar
  import Checks
  import Turkish
  import SpellingVariants

  datatype Blank = NoBlank | BlankTaxId | BlankLegalName

  datatype Plan = Plan(
    taxReg: string, taxCirc: string, taxUbo: string,
    legalReg: string, legalCirc: string, legalUbo: string,
    regDate: int, circDate: int, uboDate: int, incorporation: int, capital: real,
    regOwners: seq<Holder>, uboOwners: seq<Holder>, declared: seq<Holder>,
    signatories: seq<Signatory>, declarant: string,
    hasReg: bool, hasCirc: bool, hasUbo: bool, blank: Blank)

  // ----- rendering -----

  function Tax(p: Plan, tax: string): string {
    if p.blank == BlankTaxId then "" else tax
  }

  function Legal(p: Plan, surface: string): string {
    if p.blank == BlankLegalName then "" else surface
  }

  function ToDossier(p: Plan): Dossier {
    Dossier("",
      if p.hasReg then
        Some(Registry(p.regDate, Legal(p, p.legalReg), Tax(p, p.taxReg), p.incorporation, p.capital, p.regOwners))
      else None,
      if p.hasCirc then Some(Circular(p.circDate, Legal(p, p.legalCirc), Tax(p, p.taxCirc), p.signatories)) else None,
      if p.hasUbo then
        Some(Ubo(p.uboDate, Legal(p, p.legalUbo), Tax(p, p.taxUbo), p.uboOwners, p.declared, p.declarant))
      else None)
  }

  // ----- random building blocks -----

  // _distinct_people on a tape of draws; None when the tape runs out first.
  function DistinctFrom(draws: seq<string>, people: seq<string>, n: nat): Option<seq<string>>
    decreases |draws|
  {
    if |people| >= n then Some(people)
    else if draws == [] then None
    else DistinctFrom(draws[1..], if draws[0] in people then people else people + [draws[0]], n)
  }

  method DistinctPeople(draws: seq<string>, n: nat) returns (r: Option<seq<string>>)
    ensures r == DistinctFrom(draws, [], n)
    ensures r.Some? ==> |r.value| == n && forall i, k :: 0 <= i < k < n ==> r.value[i] != r.value[k]
  {
    var people: seq<string> := [];
    var i := 0;
    while |people| < n
      invariant i <= |draws| && |people| <= n
      invariant forall k, l :: 0 <= k < l < |people| ==> people[k] != people[l]
      invariant DistinctFrom(draws, [], n) == DistinctFrom(draws[i..], people, n)
      decreases |draws| - i
    {
      if i == |draws| {
        return None;
      }
      assert draws[i..][1..] == draws[i + 1..];
      if draws[i] !in people {
        people := people + [draws[i]];
      }
      i := i + 1;
    }
    return Some(people);
  }

  // _new_person_not_in on a tape of draws: spellings are compared, nothing else. None when the tape
  // runs out first.
  method NewPersonNotIn(draws: seq<string>, existing: seq<string>) returns (r: Option<string>)
    ensures r.None? <==> forall i :: 0 <= i < |draws| ==> draws[i] in existing
    ensures r.Some? ==> r.value !in existing
    ensures r.Some?
      ==> exists i :: 0 <= i < |draws| && draws[i] == r.value && forall k :: 0 <= k < i ==> draws[k] in existing
  {
    for i := 0 to |draws|
      invariant forall k :: 0 <= k < i ==> draws[k] in existing
    {
      if draws[i] !in existing {
        return Some(draws[i]);
      }
    }
    return None;
  }

  // The beneficial owners that must be declared.
  function Declared(owners: seq<Holder>): seq<Holder> {
    if owners == [] then []
    else if owners[0].pct + 0.001 >= Checks.UBO_THRESHOLD_PCT then [owners[0]] + Declared(owners[1..])
    else Declared(owners[1..])
  }

  const PAIR_LEADS: seq<real> := [50.0, 55.0, 60.0, 65.0, 70.0]
  const TRIPLES: seq<seq<real>> := [
    [45.0, 35.0, 20.0], [50.0, 30.0, 20.0], [40.0, 35.0, 25.0],
    [34.0, 33.0, 33.0], [50.0, 25.0, 25.0], [45.0, 30.0, 25.0]]

  // Of two holders the first has from fifty to seventy percent, in steps of five.
  lemma PairLeadsAre(x: real)
    ensures x in PAIR_LEADS <==> 50.0 <= x <= 70.0 && x / 5.0 == (x / 5.0).Floor as real
  {
    var five := x / 5.0;
    assert x == 5.0 * five;
    if 50.0 <= x <= 70.0 && five == five.Floor as real {
      assert five.Floor in {10, 11, 12, 13, 14};
      assert PAIR_LEADS[five.Floor - 10] == x;
    }
  }

  // The choices clean_base draws.
  datatype Choices = Choices(
    people: seq<string>, shape: seq<real>, head: string, form: nat, taxId: string, capital: real,
    regDate: int, toCircular: int, toUbo: int, validity: int, incorporation: int, signers: nat)

  predicate Drawable(ch: Choices) {
    && (|ch.people| == 2 || |ch.people| == 3)
    && (if |ch.people| == 2 then |ch.shape| == 2 && ch.shape[0] in PAIR_LEADS && ch.shape[1] == 100.0 - ch.shape[0]
        else ch.shape in TRIPLES)
    && ch.form < |SpellingVariants.LEGAL_SUFFIXES|
    && 20 <= ch.toCircular <= 120 && 30 <= ch.toUbo <= 200 && 700 <= ch.validity <= 1400
    && (if |ch.people| == 2 then ch.signers == 1 else ch.signers in {1, 2})
  }

  function Owners(people: seq<string>, shape: seq<real>): seq<Holder>
    requires |people| == |shape|
  {
    seq(|people|, i requires 0 <= i < |people| => Holder(people[i], shape[i]))
  }

  function LegalName(head: string, form: nat): string
    requires form < |SpellingVariants.LEGAL_SUFFIXES|
  {
    head + " " + SpellingVariants.LEGAL_SUFFIXES[form].0
  }

  function CleanBase(ch: Choices): Plan
    requires Drawable(ch)
  {
    var owners := Owners(ch.people, ch.shape);
    var legal := LegalName(ch.head, ch.form);
    var circDate := ch.regDate + ch.toCircular;
    var uboDate := circDate + ch.toUbo;
    var until := Some(uboDate + ch.validity);
    var authority := if ch.signers == 1 then Sole else Joint;
    Plan(ch.taxId, ch.taxId, ch.taxId, legal, legal, legal,
      ch.regDate, circDate, uboDate, ch.incorporation, ch.capital,
      owners, owners, Declared(owners),
      seq(ch.signers, i requires 0 <= i < ch.signers => Signatory(owners[i].name, authority, until)),
      owners[0].name, true, true, true, NoBlank)
  }

  // ----- injectors -----

  predicate EndsWith(t: string, tail: string) {
    |tail| <= |t| && t[|t| - |tail|..] == tail
  }

  // The first legal form whose full spelling ends the name.
  function FormFrom(legal: string, i: nat): Option<nat>
    decreases |SpellingVariants.LEGAL_SUFFIXES| - i
  {
    if i >= |SpellingVariants.LEGAL_SUFFIXES| then None
    else if EndsWith(legal, SpellingVariants.LEGAL_SUFFIXES[i].0) then Some(i)
    else FormFrom(legal, i + 1)
  }

  function Degrade(hs: seq<Holder>): seq<Holder> {
    seq(|hs|, i requires 0 <= i < |hs| => Holder(SpellingVariants.AsciiDegrade(hs[i].name), hs[i].pct))
  }

  function RespellLegal(p: Plan): Plan {
    match FormFrom(p.legalReg, 0)
    case None => p
    case Some(i) =>
      var full := SpellingVariants.LEGAL_SUFFIXES[i].0;
      if i < |SpellingVariants.LEGAL_SUFFIXES| && |full| <= |p.legalReg| then
        var head := Turkish.Strip(p.legalReg[..|p.legalReg| - |full|]);
        p.(legalCirc := SpellingVariants.TrUpper(head) + " " + SpellingVariants.LEGAL_SUFFIXES[i].1,
           legalUbo := SpellingVariants.AsciiDegrade(head) + " " + SpellingVariants.LEGAL_SUFFIXES[i].2)
      else p
  }

  function InjectA1(p: Plan): Plan {
    RespellLegal(p).(uboOwners := Degrade(p.uboOwners), declared := Degrade(p.declared),
      declarant := SpellingVariants.AsciiDegrade(p.declarant))
  }

  function InjectA2(p: Plan, alt: string): Plan {
    p.(taxUbo := alt)
  }

  // One holder exits; the first one absorbs the percentage.
  function Transfer(p: Plan): Plan {
    var owners := p.regOwners;
    if |owners| < 2 then p
    else
      var exiting := owners[|owners| - 1];
      var kept := owners[..|owners| - 1];
      var after := kept[0 := Holder(kept[0].name, kept[0].pct + exiting.pct)];
      p.(uboOwners := after, declared := Declared(after))
  }

  function SignedByFirst(p: Plan, until: int): Plan
    requires p.uboOwners != []
  {
    p.(declarant := p.uboOwners[0].name, signatories := [Signatory(p.uboOwners[0].name, Sole, Some(until))])
  }

  function InjectB1a(p: Plan): Plan
    requires |p.regOwners| >= 2
  {
    SignedByFirst(Transfer(p), p.uboDate + 900)
  }

  function InjectB1b(p: Plan, older: nat): Plan
    requires |p.regOwners| >= 2
  {
    SignedByFirst(Transfer(p).(uboDate := p.regDate - older), p.regDate + 1200)
  }

  function Shift(hs: seq<Holder>, delta: real): seq<Holder>
    requires hs != []
  {
    hs[0 := Holder(hs[0].name, hs[0].pct + delta)]
  }

  function InjectB2a(p: Plan, drop: real): Plan
    requires p.regOwners != [] && p.uboOwners != []
  {
    var after := Shift(p.uboOwners, -drop);
    p.(regOwners := Shift(p.regOwners, -drop), uboOwners := after, declared := Declared(after))
  }

  function InjectB2b(p: Plan, add: real): Plan
    requires p.regOwners != [] && p.uboOwners != []
  {
    p.(declared := Declared(p.uboOwners), regOwners := Shift(p.regOwners, add), uboOwners := Shift(p.uboOwners, add))
  }

  // The circular moved to gap days before the declaration, the registry before that, and the
  // company founded four calendar years earlier.
  function OlderCircular(p: Plan, gap: int, before: int, declarant: string): Plan {
    var regDate := p.uboDate - gap - before;
    p.(circDate := p.uboDate - gap, regDate := regDate, incorporation := Calendar.FourYearsBefore(regDate),
      declarant := declarant)
  }

  function InjectC1a(p: Plan, beyond: nat, before: nat, declarant: string): Plan {
    OlderCircular(p, Checks.AUTHORITY_STALENESS_DAYS + beyond, before, declarant)
  }

  function ValidUntil(sigs: seq<Signatory>, until: int): seq<Signatory> {
    seq(|sigs|, i requires 0 <= i < |sigs| => sigs[i].(validUntil := Some(until)))
  }

  function InjectC1b(p: Plan, later: nat, declarant: string): Plan {
    p.(circDate := p.uboDate + later, signatories := ValidUntil(p.signatories, p.uboDate + later + 900),
      declarant := declarant)
  }

  function Expire(p: Plan, before: int): Plan
    requires p.signatories != []
  {
    p.(signatories := p.signatories[0 := Signatory(p.declarant, p.signatories[0].authority, Some(p.uboDate - before))])
  }

  function InjectC2(p: Plan, before: nat): Plan
    requires p.signatories != []
  {
    Expire(p, before)
  }

  function InjectD1a(p: Plan, extra: string): Plan
    requires p.uboOwners != []
  {
    var q := if |Declared(p.uboOwners)| >= 2 then p
      else
        var two := [Holder(p.uboOwners[0].name, 55.0), Holder(extra, 45.0)];
        p.(uboOwners := two, regOwners := two);
    var required := Declared(q.uboOwners);
    q.(declared := if required == [] then [] else required[..|required| - 1])
  }

  function InjectD1b(p: Plan, extra: string): Plan
    requires p.uboOwners != []
  {
    var required := Declared(p.uboOwners);
    var (first, second) :=
      if |required| < 2 then (p.uboOwners[0].name, extra) else (required[0].name, required[1].name);
    p.(declared := [Holder(first, 70.0), Holder(second, 60.0)])
  }

  datatype Document = RegistryDocument | CircularDocument | UboDocument

  function InjectE1(p: Plan, which: Document): Plan {
    match which
    case RegistryDocument => p.(hasReg := false)
    case CircularDocument => p.(hasCirc := false)
    case UboDocument => p.(hasUbo := false)
  }

  function InjectE2(p: Plan, blank: Blank): Plan {
    p.(blank := blank)
  }

  // ----- boundary injectors -----

  function BoundaryC1a(p: Plan, declarant: string): Plan {
    OlderCircular(p, Checks.AUTHORITY_STALENESS_DAYS + 1, 10, declarant)
  }

  function BoundaryC1b(p: Plan, declarant: string): Plan {
    OlderCircular(p, Checks.AUTHORITY_STALENESS_DAYS, 10, declarant)
      .(signatories := ValidUntil(p.signatories, p.uboDate + 900))
  }

  function BoundaryC2(p: Plan): Plan
    requires p.signatories != []
  {
    Expire(p, 1)
  }

  // Two owners, the lead declared and signing, the other at the given percentage.
  function LeadAnd(p: Plan, leadPct: real, other: string, otherPct: real): Plan
    requires p.uboOwners != []
  {
    var lead := Holder(p.uboOwners[0].name, leadPct);
    var two := [lead, Holder(other, otherPct)];
    SignedByFirst(p.(regOwners := two, uboOwners := two, declared := [lead]), p.uboDate + 900)
  }

  function BoundaryNone(p: Plan, other: string): Plan
    requires p.uboOwners != []
  {
    LeadAnd(p, 75.1, other, 24.9)
  }

  function BoundaryD1a(p: Plan, other: string): Plan
    requires p.uboOwners != []
  {
    LeadAnd(p, 75.0, other, 25.0)
  }
}
