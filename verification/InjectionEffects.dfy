/** What each recipe of the generator does to the documents of a clean dossier, and what it leaves
    alone. */
module InjectionEffects {
  import opened Contracts
  import opened Generator
  import opened Isolation
  import opened GeneratedCases
  import Calendar
  import SpellingVariants

  ghost predicate Full(d: Dossier) {
    d.registry.Some? && d.circular.Some? && d.ubo.Some?
  }

  // ----- who must be declared -----

  // The declared holders are those of the list at the threshold or above, with a thousandth to spare.
  ghost predicate DeclaresRequired(declared: seq<Holder>, owners: seq<Holder>) {
    forall h :: multiset(declared)[h] == if h.pct >= 24.999 then multiset(owners)[h] else 0
  }

  lemma {:induction false} RequiredAreDeclared(owners: seq<Holder>)
    ensures DeclaresRequired(Declared(owners), owners)
  {
    if owners != [] {
      RequiredAreDeclared(owners[1..]);
      assert owners == [owners[0]] + owners[1..];
    }
  }

  // ----- the effects -----

  ghost predicate SamePercentages(a: seq<Holder>, b: seq<Holder>) {
    |a| == |b| && forall i :: 0 <= i < |a| ==> a[i].pct == b[i].pct
  }

  // The last holder of the registry is gone and the first one holds that part as well; the first one
  // signs alone and declares.
  ghost predicate Transfers(d: Dossier, e: Dossier, date: int, until: int)
    requires Full(d)
  {
    var (owners, ubo, n) := (d.registry.value.shareholders, d.ubo.value, |d.registry.value.shareholders| - 1);
    && n > 0 && e.id == d.id && e.registry == d.registry
    && e.circular
       == Some(d.circular.value.(signatories := [Signatory(owners[0].name, Sole, Some(until))]))
    && e.ubo.Some?
    && var after := e.ubo.value;
    && after == ubo.(date := date, shareholders := after.shareholders, declared := after.declared,
                     declarant := owners[0].name)
    && |after.shareholders| == n && after.shareholders[0] == Holder(owners[0].name, owners[0].pct + owners[n].pct)
    && (forall i :: 0 < i < n ==> after.shareholders[i] == owners[i])
    && DeclaresRequired(after.declared, after.shareholders)
  }

  // The first percentage of both lists is moved by this much.
  ghost predicate Moves(d: Dossier, e: Dossier, delta: real)
    requires Full(d)
  {
    var (registry, ubo) := (d.registry.value, d.ubo.value);
    && e.id == d.id && e.circular == d.circular && e.registry.Some? && e.ubo.Some?
    && e.registry.value == registry.(shareholders := e.registry.value.shareholders)
    && e.ubo.value == ubo.(shareholders := e.ubo.value.shareholders, declared := e.ubo.value.declared)
    && FirstMoved(registry.shareholders, e.registry.value.shareholders, delta)
    && FirstMoved(ubo.shareholders, e.ubo.value.shareholders, delta)
  }

  ghost predicate FirstMoved(before: seq<Holder>, after: seq<Holder>, delta: real) {
    && |after| == |before| > 0 && after[0].name == before[0].name && after[0].pct == before[0].pct + delta
    && forall i :: 0 < i < |after| ==> after[i] == before[i]
  }

  // The circular is this many days older than the declaration and the registry older still by the
  // given days; the company was founded on the first of January four calendar years before the
  // registry, and a stranger declares.
  ghost predicate Ages(d: Dossier, e: Dossier, days: int, before: int, stranger: string)
    requires Full(d)
  {
    && e.id == d.id && e.registry.Some? && e.circular.Some?
    && e.ubo == Some(d.ubo.value.(declarant := stranger))
    && e.circular.value == d.circular.value.(date := e.circular.value.date, signatories := e.circular.value.signatories)
    && e.registry.value
       == d.registry.value.(date := e.registry.value.date, incorporation := e.registry.value.incorporation)
    && d.ubo.value.date - e.circular.value.date == days
    && e.circular.value.date - e.registry.value.date == before
    && e.registry.value.incorporation == Calendar.FourYearsBefore(e.registry.value.date)
  }

  ghost predicate Extends(before: seq<Signatory>, after: seq<Signatory>, until: int) {
    |after| == |before| &&
      forall i :: 0 <= i < |after| ==> after[i] == Signatory(before[i].name, before[i].authority, Some(until))
  }

  // The authority of the first signatory ended this many days before the declaration.
  ghost predicate Expires(d: Dossier, e: Dossier, days: int)
    requires Full(d)
  {
    var circular := d.circular.value;
    && circular.signatories != []
    && e.registry == d.registry && e.ubo == d.ubo && e.id == d.id && e.circular.Some?
    && e.circular.value == circular.(signatories := e.circular.value.signatories)
    && var after := e.circular.value.signatories;
    && |after| == |circular.signatories| && after[1..] == circular.signatories[1..]
    && after[0] == circular.signatories[0].(validUntil := Some(d.ubo.value.date - days))
  }

  // Two holders in both lists, of whom the lead is declared, declares and signs alone.
  ghost predicate Splits(d: Dossier, e: Dossier, lead: real, other: string, rest: real)
    requires Full(d)
  {
    var ubo := d.ubo.value;
    && ubo.shareholders != []
    && var name := ubo.shareholders[0].name;
    && var two := [Holder(name, lead), Holder(other, rest)];
    && e.id == d.id && e.registry == Some(d.registry.value.(shareholders := two))
    && e.ubo == Some(ubo.(shareholders := two, declared := [Holder(name, lead)], declarant := name))
    && e.circular == Some(d.circular.value.(signatories := [Signatory(name, Sole, Some(ubo.date + 900))]))
  }

  ghost predicate Respells(d: Dossier, e: Dossier)
    requires Full(d)
  {
    && e.id == d.id && e.registry == d.registry && e.circular.Some? && e.ubo.Some?
    && e.circular.value == d.circular.value.(legalName := e.circular.value.legalName)
    && var (ubo, after) := (d.ubo.value, e.ubo.value);
    && after == ubo.(legalName := after.legalName, shareholders := after.shareholders, declared := after.declared,
                     declarant := SpellingVariants.AsciiDegrade(ubo.declarant))
    && Degraded(ubo.shareholders, after.shareholders) && Degraded(ubo.declared, after.declared)
  }

  ghost predicate Degraded(before: seq<Holder>, after: seq<Holder>) {
    && SamePercentages(before, after)
    && forall i :: 0 <= i < |after| ==> after[i].name == SpellingVariants.AsciiDegrade(before[i].name)
  }

  ghost predicate Blanks(d: Dossier, e: Dossier, blank: Blank)
    requires Full(d)
  {
    match blank
    case NoBlank => e == d
    case BlankTaxId =>
      e == Dossier(d.id, Some(d.registry.value.(taxId := "")), Some(d.circular.value.(taxId := "")),
        Some(d.ubo.value.(taxId := "")))
    case BlankLegalName =>
      e == Dossier(d.id, Some(d.registry.value.(legalName := "")), Some(d.circular.value.(legalName := "")),
        Some(d.ubo.value.(legalName := "")))
  }

  ghost predicate Drops(d: Dossier, e: Dossier, which: Document) {
    match which
    case RegistryDocument => e == d.(registry := None)
    case CircularDocument => e == d.(circular := None)
    case UboDocument => e == d.(ubo := None)
  }

  // What a recipe does to a clean dossier.
  ghost predicate Effect(r: Recipe, d: Dossier, e: Dossier)
    requires Full(d)
  {
    var (registry, circular, ubo) := (d.registry.value, d.circular.value, d.ubo.value);
    match r
    case Untouched => e == d
    case RecipeA1 => Respells(d, e)
    case RecipeA2(alt) => e == d.(ubo := Some(ubo.(taxId := alt)))
    case RecipeB1a => Transfers(d, e, ubo.date, ubo.date + 900)
    case RecipeB1b(older) => Transfers(d, e, registry.date - older, registry.date + 1200)
    case RecipeB2a(drop) => Moves(d, e, -drop) && DeclaresRequired(e.ubo.value.declared, e.ubo.value.shareholders)
    case RecipeB2b(add) => Moves(d, e, add) && e.ubo.value.declared == ubo.declared
    case RecipeC1a(beyond, before, stranger) =>
      Ages(d, e, 365 + beyond, before, stranger) && e.circular.value.signatories == circular.signatories
    case RecipeC1b(later, stranger) =>
      && e.id == d.id && e.registry == d.registry && e.ubo == Some(ubo.(declarant := stranger)) && e.circular.Some?
      && e.circular.value == circular.(date := ubo.date + later, signatories := e.circular.value.signatories)
      && Extends(circular.signatories, e.circular.value.signatories, ubo.date + later + 900)
    case RecipeC2(before) => Expires(d, e, before)
    case RecipeD1a(_) =>
      ubo.declared != [] && e == d.(ubo := Some(ubo.(declared := ubo.declared[..|ubo.declared| - 1])))
    case RecipeD1b(_) =>
      && |ubo.declared| >= 2
      && var two := [Holder(ubo.declared[0].name, 70.0), Holder(ubo.declared[1].name, 60.0)];
      && e == d.(ubo := Some(ubo.(declared := two)))
    case RecipeE1(which) => Drops(d, e, which)
    case RecipeE2(blank) => Blanks(d, e, blank)
    case EdgeNone(other) => Splits(d, e, 75.1, other, 24.9)
    case EdgeC1a(stranger) => Ages(d, e, 366, 10, stranger) && e.circular.value.signatories == circular.signatories
    case EdgeC1b(stranger) =>
      && Ages(d, e, 365, 10, stranger)
      && Extends(circular.signatories, e.circular.value.signatories, ubo.date + 900)
    case EdgeC2 => Expires(d, e, 1)
    case EdgeD1a(other) => Splits(d, e, 75.0, other, 25.0)
  }

  lemma BaseIsFull(p: Plan)
    requires IsBase(p)
    ensures Full(ToDossier(p)) && Shaped(p)
  {
    hide Digits;
  }

  lemma TransferEffect(p: Plan, date: int, until: int)
    requires IsBase(p) && Full(ToDossier(p)) && Shaped(p)
    ensures Transfers(ToDossier(p), ToDossier(Transferred(p, date, until)), date, until)
  {
    hide Declared, DeclaresRequired, Digits, IsSplit;
    RequiredAreDeclared(Transferred(p, date, until).uboOwners);
  }

  lemma TransferEffects(p: Plan, older: nat)
    requires IsBase(p) && Full(ToDossier(p)) && Shaped(p)
    ensures Effect(RecipeB1a, ToDossier(p), ToDossier(Apply(RecipeB1a, p)))
    ensures Effect(RecipeB1b(older), ToDossier(p), ToDossier(Apply(RecipeB1b(older), p)))
  {
    hide Transfers, Transferred, Digits, IsSplit, InjectB1a, InjectB1b;
    TransferPlans(p, older);
    TransferEffect(p, p.uboDate, p.uboDate + 900);
    TransferEffect(p, p.regDate - older, p.regDate + 1200);
  }

  lemma MoveEffects(p: Plan, x: real)
    requires IsBase(p) && Full(ToDossier(p)) && Shaped(p)
    ensures Effect(RecipeB2a(x), ToDossier(p), ToDossier(Apply(RecipeB2a(x), p)))
    ensures Effect(RecipeB2b(x), ToDossier(p), ToDossier(Apply(RecipeB2b(x), p)))
  {
    hide Declared, DeclaresRequired, Digits;
    RequiredAreDeclared(Shift(p.uboOwners, -x));
  }

  lemma OwnerEffects(p: Plan, extra: string)
    requires IsBase(p) && Full(ToDossier(p)) && Shaped(p)
    ensures Effect(RecipeD1a(extra), ToDossier(p), ToDossier(Apply(RecipeD1a(extra), p)))
    ensures Effect(RecipeD1b(extra), ToDossier(p), ToDossier(Apply(RecipeD1b(extra), p)))
  {
    hide Digits;
    TwoAreDeclared(p.uboOwners);
  }

  lemma TwoAreDeclared(owners: seq<Holder>)
    requires IsSplit(owners)
    ensures |Declared(owners)| >= 2
  {
    assert |Declared(owners[2..])| >= 0;
    assert owners[1..][1..] == owners[2..];
  }

  lemma StrangerEffects(r: Recipe, p: Plan)
    requires IsBase(p) && Full(ToDossier(p)) && Shaped(p)
    requires r.RecipeC1a? || r.RecipeC1b? || r.EdgeC1a? || r.EdgeC1b?
    ensures Effect(r, ToDossier(p), ToDossier(Apply(r, p)))
  {
    hide Digits, Declared, IsSplit, Calendar.FourYearsBefore;
  }

  lemma ExpiryEffects(r: Recipe, p: Plan)
    requires IsBase(p) && Full(ToDossier(p)) && Shaped(p)
    requires r.RecipeC2? || r.EdgeC2?
    ensures Effect(r, ToDossier(p), ToDossier(Apply(r, p)))
  {
    hide Digits, Declared, IsSplit;
  }

  lemma OtherEffects(r: Recipe, p: Plan)
    requires IsBase(p) && Full(ToDossier(p)) && Shaped(p)
    requires r.Untouched? || r.RecipeA1? || r.RecipeA2? || r.RecipeE1? || r.RecipeE2?
    ensures Effect(r, ToDossier(p), ToDossier(Apply(r, p)))
  {
    hide Digits, Declared, IsSplit, SpellingVariants.AsciiDegrade, SpellingVariants.TrUpper;
  }

  lemma SplitEffects(r: Recipe, p: Plan)
    requires IsBase(p) && Full(ToDossier(p)) && Shaped(p)
    requires r.EdgeNone? || r.EdgeD1a?
    ensures Effect(r, ToDossier(p), ToDossier(Apply(r, p)))
  {
    hide Digits, Declared, IsSplit;
  }

  // The effect of every recipe on every clean dossier.
  lemma RecipesDoThis(r: Recipe, p: Plan)
    requires IsBase(p)
    ensures Full(ToDossier(p)) && Shaped(p) && Effect(r, ToDossier(p), ToDossier(Apply(r, p)))
  {
    hide Effect, Apply, ToDossier, IsBase, Shaped, Full;
    BaseIsFull(p);
    match r
    case RecipeB1a => TransferEffects(p, 0);
    case RecipeB1b(older) => TransferEffects(p, older);
    case RecipeB2a(drop) => MoveEffects(p, drop);
    case RecipeB2b(add) => MoveEffects(p, add);
    case RecipeC1a(_, _, _) => StrangerEffects(r, p);
    case RecipeC1b(_, _) => StrangerEffects(r, p);
    case EdgeC1a(_) => StrangerEffects(r, p);
    case EdgeC1b(_) => StrangerEffects(r, p);
    case RecipeC2(_) => ExpiryEffects(r, p);
    case EdgeC2 => ExpiryEffects(r, p);
    case RecipeD1a(extra) => OwnerEffects(p, extra);
    case RecipeD1b(extra) => OwnerEffects(p, extra);
    case EdgeNone(_) => SplitEffects(r, p);
    case EdgeD1a(_) => SplitEffects(r, p);
    case _ => OtherEffects(r, p);
  }
}
