/** The mutable blueprint: every injector edits it in place, to the effect of the plan function
    of the same name. */
module Blueprints {
  import opened Contracts
  import opened Generator
  import Calendar
  import Checks
  import SpellingVariants
  import Turkish

  class Blueprint {
    var taxReg: string
    var taxCirc: string
    var taxUbo: string
    var legalReg: string
    var legalCirc: string
    var legalUbo: string
    var regDate: int
    var circDate: int
    var uboDate: int
    var incorporation: int
    var capital: real
    var regOwners: seq<Holder>
    var uboOwners: seq<Holder>
    var declared: seq<Holder>
    var signatories: seq<Signatory>
    var declarant: string
    var hasReg: bool
    var hasCirc: bool
    var hasUbo: bool
    var blank: Blank

    function Snapshot(): Plan
      reads this
    {
      Plan(taxReg, taxCirc, taxUbo, legalReg, legalCirc, legalUbo, regDate, circDate, uboDate, incorporation, capital,
        regOwners, uboOwners, declared, signatories, declarant, hasReg, hasCirc, hasUbo, blank)
    }

    // clean_base
    constructor (ch: Choices)
      requires Drawable(ch)
      ensures Snapshot() == CleanBase(ch)
    {
      var owners := Owners(ch.people, ch.shape);
      var legal := LegalName(ch.head, ch.form);
      var circular := ch.regDate + ch.toCircular;
      var declaration := circular + ch.toUbo;
      var authority := if ch.signers == 1 then Sole else Joint;
      taxReg, taxCirc, taxUbo := ch.taxId, ch.taxId, ch.taxId;
      legalReg, legalCirc, legalUbo := legal, legal, legal;
      regDate, circDate, uboDate := ch.regDate, circular, declaration;
      incorporation, capital := ch.incorporation, ch.capital;
      regOwners, uboOwners, declared := owners, owners, Declared(owners);
      signatories := seq(ch.signers,
        i requires 0 <= i < ch.signers => Signatory(owners[i].name, authority, Some(declaration + ch.validity)));
      declarant := owners[0].name;
      hasReg, hasCirc, hasUbo, blank := true, true, true, NoBlank;
    }

    // to_dossier
    method Render() returns (d: Dossier)
      ensures d == ToDossier(Snapshot())
    {
      var registry := if hasReg then Some(Registry(regDate, if blank == BlankLegalName then "" else legalReg,
        if blank == BlankTaxId then "" else taxReg, incorporation, capital, regOwners)) else None;
      var circular := if hasCirc then Some(Circular(circDate, if blank == BlankLegalName then "" else legalCirc,
        if blank == BlankTaxId then "" else taxCirc, signatories)) else None;
      var ubo := if hasUbo then Some(Ubo(uboDate, if blank == BlankLegalName then "" else legalUbo,
        if blank == BlankTaxId then "" else taxUbo, uboOwners, declared, declarant)) else None;
      d := Dossier("", registry, circular, ubo);
    }

    method InjectA1InPlace()
      modifies this
      ensures Snapshot() == InjectA1(old(Snapshot()))
    {
      RespellLegalNames();
      uboOwners, declared := Degrade(uboOwners), Degrade(declared);
      declarant := SpellingVariants.AsciiDegrade(declarant);
    }

    method RespellLegalNames()
      modifies this
      ensures Snapshot() == RespellLegal(old(Snapshot()))
    {
      hide SpellingVariants.LEGAL_SUFFIXES, SpellingVariants.TrUpper, SpellingVariants.AsciiDegrade, Turkish.Strip;
      for i := 0 to |SpellingVariants.LEGAL_SUFFIXES|
        invariant Snapshot() == old(Snapshot())
        invariant FormFrom(legalReg, 0) == FormFrom(legalReg, i)
      {
        var form := SpellingVariants.LEGAL_SUFFIXES[i];
        if EndsWith(legalReg, form.0) {
          var head := Turkish.Strip(legalReg[..|legalReg| - |form.0|]);
          legalCirc := SpellingVariants.TrUpper(head) + " " + form.1;
          legalUbo := SpellingVariants.AsciiDegrade(head) + " " + form.2;
          return;
        }
      }
    }

    // The replacement is redrawn until it differs; None when the tape runs out first.
    method InjectA2InPlace(draws: seq<string>) returns (alt: Option<string>)
      modifies this
      ensures alt.None? <==> forall i :: 0 <= i < |draws| ==> draws[i] == old(taxReg)
      ensures alt.Some? ==>
        exists i :: 0 <= i < |draws| && draws[i] == alt.value && forall k :: 0 <= k < i ==> draws[k] == old(taxReg)
      ensures alt.Some? ==> alt.value != old(taxReg) && Snapshot() == InjectA2(old(Snapshot()), alt.value)
      ensures alt.None? ==> Snapshot() == old(Snapshot())
    {
      for i := 0 to |draws|
        invariant Snapshot() == old(Snapshot())
        invariant forall k :: 0 <= k < i ==> draws[k] == taxReg
      {
        if draws[i] != taxReg {
          taxUbo := draws[i];
          return Some(draws[i]);
        }
      }
      return None;
    }

    method TransferInPlace()
      modifies this
      ensures Snapshot() == Transfer(old(Snapshot()))
    {
      if |regOwners| < 2 {
        return;
      }
      var exiting := regOwners[|regOwners| - 1];
      var after := regOwners[..|regOwners| - 1];
      after := after[0 := Holder(after[0].name, after[0].pct + exiting.pct)];
      uboOwners := after;
      declared := Declared(after);
    }

    method SignByFirst(until: int)
      requires uboOwners != []
      modifies this
      ensures Snapshot() == SignedByFirst(old(Snapshot()), until)
    {
      declarant := uboOwners[0].name;
      signatories := [Signatory(uboOwners[0].name, Sole, Some(until))];
    }

    method InjectB1aInPlace()
      requires |regOwners| >= 2
      modifies this
      ensures Snapshot() == InjectB1a(old(Snapshot()))
    {
      TransferInPlace();
      SignByFirst(uboDate + 900);
    }

    method InjectB1bInPlace(older: nat)
      requires |regOwners| >= 2
      modifies this
      ensures Snapshot() == InjectB1b(old(Snapshot()), older)
    {
      TransferInPlace();
      uboDate := regDate - older;
      SignByFirst(regDate + 1200);
    }

    method InjectB2aInPlace(drop: real)
      requires regOwners != [] && uboOwners != []
      modifies this
      ensures Snapshot() == InjectB2a(old(Snapshot()), drop)
    {
      regOwners := regOwners[0 := Holder(regOwners[0].name, regOwners[0].pct - drop)];
      uboOwners := uboOwners[0 := Holder(uboOwners[0].name, uboOwners[0].pct - drop)];
      declared := Declared(uboOwners);
    }

    // The declaration is taken before the inflation.
    method InjectB2bInPlace(add: real)
      requires regOwners != [] && uboOwners != []
      modifies this
      ensures Snapshot() == InjectB2b(old(Snapshot()), add)
    {
      declared := Declared(uboOwners);
      regOwners := regOwners[0 := Holder(regOwners[0].name, regOwners[0].pct + add)];
      uboOwners := uboOwners[0 := Holder(uboOwners[0].name, uboOwners[0].pct + add)];
    }

    method OlderCircularInPlace(gap: int, before: int, stranger: string)
      modifies this`circDate, this`regDate, this`incorporation, this`declarant
      ensures Snapshot() == OlderCircular(old(Snapshot()), gap, before, stranger)
    {
      hide Calendar.FourYearsBefore;
      circDate := uboDate - gap;
      regDate := circDate - before;
      incorporation := Calendar.FourYearsBefore(regDate);
      declarant := stranger;
    }

    method InjectC1aInPlace(beyond: nat, before: nat, stranger: string)
      modifies this
      ensures Snapshot() == InjectC1a(old(Snapshot()), beyond, before, stranger)
    {
      hide Snapshot, OlderCircular;
      OlderCircularInPlace(Checks.AUTHORITY_STALENESS_DAYS + beyond, before, stranger);
    }

    method ExtendSignatories(until: int)
      modifies this`signatories
      ensures signatories == ValidUntil(old(signatories), until)
    {
      for i := 0 to |signatories|
        invariant |signatories| == |old(signatories)|
        invariant forall k :: 0 <= k < i ==> signatories[k] == old(signatories)[k].(validUntil := Some(until))
        invariant forall k :: i <= k < |signatories| ==> signatories[k] == old(signatories)[k]
      {
        signatories := signatories[i := signatories[i].(validUntil := Some(until))];
      }
    }

    method InjectC1bInPlace(later: nat, stranger: string)
      modifies this
      ensures Snapshot() == InjectC1b(old(Snapshot()), later, stranger)
    {
      hide ValidUntil;
      circDate := uboDate + later;
      ExtendSignatories(circDate + 900);
      declarant := stranger;
    }

    method InjectC2InPlace(before: nat)
      requires signatories != []
      modifies this
      ensures Snapshot() == InjectC2(old(Snapshot()), before)
    {
      signatories := signatories[0 := Signatory(declarant, signatories[0].authority, Some(uboDate - before))];
    }

    method InjectD1aInPlace(extra: string)
      requires uboOwners != []
      modifies this
      ensures Snapshot() == InjectD1a(old(Snapshot()), extra)
    {
      if |Declared(uboOwners)| < 2 {
        uboOwners := [Holder(uboOwners[0].name, 55.0), Holder(extra, 45.0)];
        regOwners := uboOwners;
      }
      var required := Declared(uboOwners);
      declared := if required == [] then [] else required[..|required| - 1];
    }

    method InjectD1bInPlace(extra: string)
      requires uboOwners != []
      modifies this
      ensures Snapshot() == InjectD1b(old(Snapshot()), extra)
    {
      var first, second := uboOwners[0].name, extra;
      var required := Declared(uboOwners);
      if |required| >= 2 {
        first, second := required[0].name, required[1].name;
      }
      declared := [Holder(first, 70.0), Holder(second, 60.0)];
    }

    method InjectE1InPlace(which: Document)
      modifies this
      ensures Snapshot() == InjectE1(old(Snapshot()), which)
    {
      match which
      case RegistryDocument => hasReg := false;
      case CircularDocument => hasCirc := false;
      case UboDocument => hasUbo := false;
    }

    method InjectE2InPlace(which: Blank)
      modifies this
      ensures Snapshot() == InjectE2(old(Snapshot()), which)
    {
      blank := which;
    }

    method BoundaryC1aInPlace(stranger: string)
      modifies this
      ensures Snapshot() == BoundaryC1a(old(Snapshot()), stranger)
    {
      hide Snapshot, OlderCircular;
      OlderCircularInPlace(Checks.AUTHORITY_STALENESS_DAYS + 1, 10, stranger);
    }

    method BoundaryC1bInPlace(stranger: string)
      modifies this
      ensures Snapshot() == BoundaryC1b(old(Snapshot()), stranger)
    {
      hide ValidUntil, OlderCircular;
      OlderCircularInPlace(Checks.AUTHORITY_STALENESS_DAYS, 10, stranger);
      ExtendSignatories(uboDate + 900);
    }

    method BoundaryC2InPlace()
      requires signatories != []
      modifies this
      ensures Snapshot() == BoundaryC2(old(Snapshot()))
    {
      signatories := signatories[0 := Signatory(declarant, signatories[0].authority, Some(uboDate - 1))];
    }

    method LeadAndInPlace(leadPct: real, other: string, otherPct: real)
      requires uboOwners != []
      modifies this
      ensures Snapshot() == LeadAnd(old(Snapshot()), leadPct, other, otherPct)
    {
      var lead := Holder(uboOwners[0].name, leadPct);
      regOwners := [lead, Holder(other, otherPct)];
      uboOwners := [lead, Holder(other, otherPct)];
      declared := [lead];
      SignByFirst(uboDate + 900);
    }
  }
}
