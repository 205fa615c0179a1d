/** What the repeat structure of a published summary says about the attempts: who intervened always,
    sometimes and never, and whose severity varied, in terms of the cases alone. */
module RepeatGroups {
  import opened Contracts
  import opened PublicSummary
  import opened SummaryTheorems

  // ----- one case id across the attempts -----

  ghost predicate IntervenesIn(a: PublicAttempt, id: string) {
    exists i :: 0 <= i < |a.cases| && a.cases[i].id == id && a.cases[i].intervened
  }

  // Some attempt publishes this id with these severity codes.
  ghost predicate Shows(attempts: seq<PublicAttempt>, id: string, codes: seq<string>) {
    exists i, j :: 0 <= i < |attempts| && 0 <= j < |attempts[i].cases|
      && attempts[i].cases[j].id == id && attempts[i].cases[j].severityCodes == codes
  }

  lemma {:induction false} NoHitIff(cases: seq<PublicCase>, id: string)
    ensures HitsIn(cases, id) == 0 <==> forall i :: 0 <= i < |cases| ==> !(cases[i].id == id && cases[i].intervened)
  {
    if cases != [] {
      var init := cases[..|cases| - 1];
      NoHitIff(init, id);
      forall i | 0 <= i < |init| ensures init[i] == cases[i] {}
    }
  }

  lemma HitIff(a: PublicAttempt, id: string)
    requires DistinctIds(a.cases)
    ensures HitsIn(a.cases, id) == if IntervenesIn(a, id) then 1 else 0
  {
    hide HitsIn, DistinctIds;
    NoHitIff(a.cases, id);
    AtMostOneHit(a.cases, id);
  }

  lemma {:induction false} HitsCountAttempts(attempts: seq<PublicAttempt>, id: string)
    requires forall i :: 0 <= i < |attempts| ==> DistinctIds(attempts[i].cases)
    ensures HitsAcross(attempts, id) == |attempts|
      <==> forall i :: 0 <= i < |attempts| ==> IntervenesIn(attempts[i], id)
    ensures HitsAcross(attempts, id) == 0
      <==> forall i :: 0 <= i < |attempts| ==> !IntervenesIn(attempts[i], id)
    ensures HitsAcross(attempts, id) <= |attempts|
  {
    hide DistinctIds, HitsIn, IntervenesIn;
    if attempts != [] {
      var init, last := attempts[..|attempts| - 1], attempts[|attempts| - 1];
      HitsCountAttempts(init, id);
      HitIff(last, id);
      forall i | 0 <= i < |init| ensures init[i] == attempts[i] {}
    }
  }

  // ----- severities -----

  function CodesOf(severities: map<string, set<seq<string>>>, id: string): set<seq<string>> {
    if id in severities then severities[id] else {}
  }

  lemma {:induction false} CasesShown(t: Tabulation, cases: seq<PublicCase>, id: string, codes: seq<string>)
    ensures codes in CodesOf(AddCases(t, cases).severities, id)
      <==> codes in CodesOf(t.severities, id)
           || exists j :: 0 <= j < |cases| && cases[j].id == id && cases[j].severityCodes == codes
  {
    if cases != [] {
      var init, last := cases[..|cases| - 1], cases[|cases| - 1];
      CasesShown(t, init, id, codes);
      forall j | 0 <= j < |init| ensures init[j] == cases[j] {}
    }
  }

  lemma ShownLast(init: seq<PublicAttempt>, last: PublicAttempt, id: string, codes: seq<string>)
    ensures Shows(init + [last], id, codes)
      <==> Shows(init, id, codes)
           || exists j :: 0 <= j < |last.cases| && last.cases[j].id == id && last.cases[j].severityCodes == codes
  {
    var all := init + [last];
    forall i | 0 <= i < |init| ensures all[i] == init[i] {}
    if j :| 0 <= j < |last.cases| && last.cases[j].id == id && last.cases[j].severityCodes == codes {
      assert all[|init|] == last;
    }
  }

  lemma {:induction false} SeveritiesShown(attempts: seq<PublicAttempt>, id: string, codes: seq<string>)
    ensures codes in CodesOf(Tabulate(attempts).severities, id) <==> Shows(attempts, id, codes)
  {
    hide Shows;
    if attempts == [] {
      NothingShown(id, codes);
    } else {
      var init, last := attempts[..|attempts| - 1], attempts[|attempts| - 1];
      SeveritiesShown(init, id, codes);
      CasesShown(Tabulate(init), last.cases, id, codes);
      ShownLast(init, last, id, codes);
      assert attempts == init + [last];
    }
  }

  lemma NothingShown(id: string, codes: seq<string>)
    ensures !Shows([], id, codes)
  {}

  lemma TwoOfThem<T>(s: set<T>)
    ensures |s| > 1 <==> exists x, y :: x in s && y in s && x != y
  {
    if |s| > 1 {
      var x :| x in s;
      assert |s - {x}| > 0;
      var y :| y in s - {x};
    }
    if x, y :| x in s && y in s && x != y {
      assert |s| == |s - {x}| + 1 && y in s - {x};
    }
  }

  lemma VariesIff(attempts: seq<PublicAttempt>, id: string)
    ensures |CodesOf(Tabulate(attempts).severities, id)| > 1
      <==> exists x, y :: Shows(attempts, id, x) && Shows(attempts, id, y) && x != y
  {
    hide Shows, Tabulate;
    var s := CodesOf(Tabulate(attempts).severities, id);
    TwoOfThem(s);
    forall codes ensures codes in s <==> Shows(attempts, id, codes) {
      SeveritiesShown(attempts, id, codes);
    }
  }

  // ----- the groups -----

  lemma GroupMembers(t: Tabulation, n: nat, id: string)
    requires n > 0
    ensures var g := Group(t, n);
      && (id in g.always <==> id in t.hits && HitOf(t.hits, id) == n)
      && (id in g.sometimes <==> id in t.hits && 0 < HitOf(t.hits, id) < n)
      && (id in g.never <==> id in t.hits && HitOf(t.hits, id) == 0)
      && (id in g.varied <==> id in g.always && |CodesOf(t.severities, id)| > 1)
  {}

  // Over one corpus without duplicates: an id is in always iff every attempt has a case of that id
  // that intervened, in never iff it occurs and no attempt has one, in sometimes iff some attempts
  // have one and some have none; and its severity varied iff it is in always and two attempts
  // publish different codes for it.
  lemma GroupsMean(attempts: seq<PublicAttempt>, id: string)
    requires SharedCorpus(attempts) && forall i :: 0 <= i < |attempts| ==> DistinctIds(attempts[i].cases)
    ensures var g := Group(Tabulate(attempts), |attempts|);
      && (id in g.always <==> forall i :: 0 <= i < |attempts| ==> IntervenesIn(attempts[i], id))
      && (id in g.never <==>
            id in CaseIdSet(attempts[0]) && forall i :: 0 <= i < |attempts| ==> !IntervenesIn(attempts[i], id))
      && (id in g.sometimes <==>
            && (exists i :: 0 <= i < |attempts| && IntervenesIn(attempts[i], id))
            && (exists i :: 0 <= i < |attempts| && !IntervenesIn(attempts[i], id)))
      && (id in g.varied <==>
            && (forall i :: 0 <= i < |attempts| ==> IntervenesIn(attempts[i], id))
            && (exists x, y :: Shows(attempts, id, x) && Shows(attempts, id, y) && x != y))
  {
    hide DistinctIds, Tabulate, Group, IntervenesIn, Shows, HitsAcross, CodesOf;
    var t := Tabulate(attempts);
    SharedIsNonempty(attempts);
    TabulatedIds(attempts);
    TabulationCounts(attempts, id);
    HitsCountAttempts(attempts, id);
    GroupMembers(t, |attempts|, id);
    VariesIff(attempts, id);
    forall i | 0 <= i < |attempts| && IntervenesIn(attempts[i], id) ensures id in t.hits {
      IntervenerOccurs(attempts, i, id);
    }
  }

  lemma SharedIsNonempty(attempts: seq<PublicAttempt>)
    requires SharedCorpus(attempts)
    ensures attempts != []
  {}

  lemma IntervenerOccurs(attempts: seq<PublicAttempt>, i: nat, id: string)
    requires i < |attempts| && IntervenesIn(attempts[i], id)
    ensures id in Tabulate(attempts).hits
  {
    hide Tabulate;
    TabulationCounts(attempts, id);
    assert Occurs(attempts[i].cases, id);
  }
}
