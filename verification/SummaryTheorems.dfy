/** What a published summary guarantees: its tabulations add up, its groups partition the corpus,
    nothing forbidden is in it, and nothing that was removed could have influenced it. */
module SummaryTheorems {
  import opened Contracts
  import opened Json
  import opened PublicSummary

  // ----- sorting keeps the cases -----

  lemma {:induction false} InsertKeeps(c: PublicCase, cases: seq<PublicCase>)
    ensures multiset(InsertCase(c, cases)) == multiset(cases) + multiset{c}
  {
    if cases != [] && !Before(c.id, cases[0].id) {
      InsertKeeps(c, cases[1..]);
      assert cases == [cases[0]] + cases[1..];
    }
  }

  lemma {:induction false} SortKeeps(cases: seq<PublicCase>)
    ensures multiset(SortById(cases)) == multiset(cases) && |SortById(cases)| == |cases|
  {
    if cases != [] {
      SortKeeps(cases[..|cases| - 1]);
      InsertKeeps(cases[|cases| - 1], SortById(cases[..|cases| - 1]));
      assert cases == cases[..|cases| - 1] + [cases[|cases| - 1]];
    }
    assert |multiset(SortById(cases))| == |SortById(cases)| && |multiset(cases)| == |cases|;
  }

  lemma SortedOccurs(cases: seq<PublicCase>, id: string)
    ensures Occurs(SortById(cases), id) <==> Occurs(cases, id)
  {
    SortKeeps(cases);
    if i :| 0 <= i < |cases| && cases[i].id == id {
      assert cases[i] in multiset(SortById(cases));
    }
    if i :| 0 <= i < |SortById(cases)| && SortById(cases)[i].id == id {
      assert SortById(cases)[i] in multiset(cases);
    }
  }

  lemma {:induction false} InsertOccurs(c: PublicCase, cases: seq<PublicCase>, id: string)
    ensures Occurs(InsertCase(c, cases), id) <==> c.id == id || Occurs(cases, id)
  {
    InsertKeeps(c, cases);
    var r := InsertCase(c, cases);
    if i :| 0 <= i < |cases| && cases[i].id == id {
      assert cases[i] in multiset(r);
    }
    if i :| 0 <= i < |r| && r[i].id == id {
      assert r[i] in multiset(r);
    }
    assert c in multiset(r);
  }

  lemma {:induction false} InsertDistinct(c: PublicCase, cases: seq<PublicCase>)
    requires DistinctIds(cases) && !Occurs(cases, c.id)
    ensures DistinctIds(InsertCase(c, cases))
  {
    if cases != [] && !Before(c.id, cases[0].id) {
      var rest := cases[1..];
      assert !Occurs(rest, c.id) by {
        forall i | 0 <= i < |rest| ensures rest[i].id != c.id { assert rest[i] == cases[i + 1]; }
      }
      InsertDistinct(c, rest);
      InsertOccurs(c, rest, cases[0].id);
      var r := InsertCase(c, rest);
      assert !Occurs(rest, cases[0].id);
      forall i | 0 <= i < |r| ensures r[i].id != cases[0].id {}
    }
  }

  lemma {:induction false} SortDistinct(cases: seq<PublicCase>)
    requires DistinctIds(cases)
    ensures DistinctIds(SortById(cases))
  {
    if cases != [] {
      var init, last := cases[..|cases| - 1], cases[|cases| - 1];
      SortDistinct(init);
      SortedOccurs(init, last.id);
      assert !Occurs(init, last.id);
      InsertDistinct(last, SortById(init));
    }
  }

  lemma {:induction false} CallsJoin(a: seq<PublicCase>, b: seq<PublicCase>)
    ensures CaseCalls(a + b) == CaseCalls(a) + CaseCalls(b)
  {
    if b == [] {
      assert a + b == a;
    } else {
      assert (a + b)[..|a + b| - 1] == a + b[..|b| - 1];
      CallsJoin(a, b[..|b| - 1]);
    }
  }

  lemma {:induction false} CallsOfInsert(c: PublicCase, cases: seq<PublicCase>)
    ensures CaseCalls(InsertCase(c, cases)) == c.providerCalls + CaseCalls(cases)
  {
    CallsJoin([c], cases);
    assert CaseCalls([c]) == c.providerCalls;
    if cases != [] && !Before(c.id, cases[0].id) {
      CallsOfInsert(c, cases[1..]);
      CallsJoin([cases[0]], InsertCase(c, cases[1..]));
      CallsJoin([cases[0]], cases[1..]);
      assert cases == [cases[0]] + cases[1..];
    }
  }

  lemma {:induction false} CallsOfSort(cases: seq<PublicCase>)
    ensures CaseCalls(SortById(cases)) == CaseCalls(cases)
  {
    if cases != [] {
      CallsOfSort(cases[..|cases| - 1]);
      CallsOfInsert(cases[|cases| - 1], SortById(cases[..|cases| - 1]));
    }
  }

  lemma {:induction false} IntervenedJoin(a: seq<PublicCase>, b: seq<PublicCase>)
    ensures CountIntervened(a + b) == CountIntervened(a) + CountIntervened(b)
  {
    if b == [] {
      assert a + b == a;
    } else {
      assert (a + b)[..|a + b| - 1] == a + b[..|b| - 1];
      IntervenedJoin(a, b[..|b| - 1]);
    }
  }

  lemma IntervenedOfOne(c: PublicCase)
    ensures CountIntervened([c]) == if c.intervened then 1 else 0
  {
    assert [c][..0] == [];
  }

  lemma {:induction false} IntervenedOfInsert(c: PublicCase, cases: seq<PublicCase>)
    ensures CountIntervened(InsertCase(c, cases)) == CountIntervened([c]) + CountIntervened(cases)
  {
    hide CountIntervened, Before;
    IntervenedJoin([c], cases);
    if cases != [] && !Before(c.id, cases[0].id) {
      IntervenedOfInsert(c, cases[1..]);
      IntervenedJoin([cases[0]], InsertCase(c, cases[1..]));
      IntervenedJoin([cases[0]], cases[1..]);
      assert cases == [cases[0]] + cases[1..];
    }
  }

  // Sorting keeps the number of interventions.
  lemma {:induction false} IntervenedOfSort(cases: seq<PublicCase>)
    ensures CountIntervened(SortById(cases)) == CountIntervened(cases)
  {
    hide InsertCase;
    if cases != [] {
      var n := |cases| - 1;
      IntervenedOfSort(cases[..n]);
      IntervenedOfInsert(cases[n], SortById(cases[..n]));
      IntervenedOfOne(cases[n]);
    }
  }

  lemma {:induction false} BeforeIsTotal(a: string, b: string)
    ensures Before(a, b) || Before(b, a)
  {
    if a != "" && b != "" && a[0] == b[0] {
      BeforeIsTotal(a[1..], b[1..]);
    }
  }

  lemma {:induction false} BeforeIsTransitive(a: string, b: string, c: string)
    requires Before(a, b) && Before(b, c)
    ensures Before(a, c)
  {
    if a != "" && b != "" && c != "" && a[0] == b[0] == c[0] {
      BeforeIsTransitive(a[1..], b[1..], c[1..]);
    }
  }

  ghost predicate InIdOrder(cases: seq<PublicCase>) {
    forall i, k :: 0 <= i < k < |cases| ==> Before(cases[i].id, cases[k].id)
  }

  lemma {:induction false} InsertKeepsOrder(c: PublicCase, cases: seq<PublicCase>)
    requires InIdOrder(cases)
    ensures InIdOrder(InsertCase(c, cases))
  {
    hide Before;
    if cases == [] {
    } else if Before(c.id, cases[0].id) {
      forall k | 1 <= k < |cases| ensures Before(c.id, cases[k].id) {
        BeforeIsTransitive(c.id, cases[0].id, cases[k].id);
      }
    } else {
      InsertKeepsOrder(c, cases[1..]);
      BeforeIsTotal(c.id, cases[0].id);
      InsertKeeps(c, cases[1..]);
      var r := InsertCase(c, cases[1..]);
      forall k | 0 <= k < |r| ensures Before(cases[0].id, r[k].id) {
        assert r[k] in multiset(r);
      }
    }
  }

  // The published cases are in the order of their ids.
  lemma {:induction false} SortOrders(cases: seq<PublicCase>)
    ensures InIdOrder(SortById(cases))
  {
    if cases != [] {
      SortOrders(cases[..|cases| - 1]);
      InsertKeepsOrder(cases[|cases| - 1], SortById(cases[..|cases| - 1]));
    }
  }

  lemma {:induction false} CountsCoverCases(cases: seq<PublicCase>)
    requires forall i :: 0 <= i < |cases| ==> IsDecision(Text(cases[i].decision))
    ensures CountDecision(cases, "approve") + CountDecision(cases, "escalate")
      + CountDecision(cases, "request_more_info") == |cases|
  {
    if cases != [] {
      CountsCoverCases(cases[..|cases| - 1]);
    }
  }

  lemma PublishedDecision(c: Json)
    requires CaseOk(c)
    ensures IsDecision(Text(PublicCaseOf(c).decision))
  {
    hide SeverityCodes, ExpectedCaseIds;
  }

  lemma PublishedDecisions(cases: seq<Json>)
    requires CasesOk(cases)
    ensures |PublicCases(cases)| == |cases|
    ensures forall i :: 0 <= i < |PublicCases(cases)| ==> IsDecision(Text(PublicCases(cases)[i].decision))
  {
    hide CaseOk, PublicCaseOf, IsDecision;
    forall i | 0 <= i < |cases| ensures IsDecision(Text(PublicCases(cases)[i].decision)) {
      PublishedDecision(cases[i]);
    }
  }

  // The published decision counts of an attempt total its n, and its k counts the interventions
  // among the cases published with it.
  lemma DecisionCountsAddUp(a: Json)
    requires AttemptOk(a)
    ensures var p := PublicAttemptOf(a);
      NumberIs(p.n, p.approve + p.escalate + p.requestMoreInfo) && NumberIs(p.k, CountIntervened(p.cases))
  {
    hide IsDecision, IsClose, OrderedPair, CountIntervened, CountDecision, SortById, PublicCases, CasesOk;
    PublishedDecisions(a.fields[Cases].items);
    CountsCoverCases(PublicCases(a.fields[Cases].items));
    IntervenedOfSort(PublicCases(a.fields[Cases].items));
  }

  // ----- the tabulation counts -----

  function One(b: bool): nat {
    if b then 1 else 0
  }

  // How often a case id intervened among these cases.
  function HitsIn(cases: seq<PublicCase>, id: string): nat {
    if cases == [] then 0
    else HitsIn(cases[..|cases| - 1], id) + One(cases[|cases| - 1].id == id && cases[|cases| - 1].intervened)
  }

  predicate Occurs(cases: seq<PublicCase>, id: string) {
    exists i :: 0 <= i < |cases| && cases[i].id == id
  }

  function HitOf(hits: map<string, nat>, id: string): nat {
    if id in hits then hits[id] else 0
  }

  lemma {:induction false} CasesCounted(t: Tabulation, cases: seq<PublicCase>, id: string)
    ensures id in AddCases(t, cases).hits <==> id in t.hits || Occurs(cases, id)
    ensures HitOf(AddCases(t, cases).hits, id) == HitOf(t.hits, id) + HitsIn(cases, id)
  {
    if cases != [] {
      var init, last := cases[..|cases| - 1], cases[|cases| - 1];
      CasesCounted(t, init, id);
      assert Occurs(cases, id) <==> Occurs(init, id) || last.id == id by {
        if i :| 0 <= i < |cases| && cases[i].id == id {
          assert i < |init| ==> init[i] == cases[i];
        }
        if i :| 0 <= i < |init| && init[i].id == id {
          assert cases[i] == init[i];
        }
        assert cases[|cases| - 1] == last;
      }
    }
  }

  function HitsAcross(attempts: seq<PublicAttempt>, id: string): nat {
    if attempts == [] then 0
    else HitsAcross(attempts[..|attempts| - 1], id) + HitsIn(attempts[|attempts| - 1].cases, id)
  }

  predicate OccursAcross(attempts: seq<PublicAttempt>, id: string) {
    exists i :: 0 <= i < |attempts| && Occurs(attempts[i].cases, id)
  }

  // The tabulation holds exactly the ids that occur, each with the number of times it was
  // classified as an intervention.
  lemma {:induction false} TabulationCounts(attempts: seq<PublicAttempt>, id: string)
    ensures id in Tabulate(attempts).hits <==> OccursAcross(attempts, id)
    ensures HitOf(Tabulate(attempts).hits, id) == HitsAcross(attempts, id)
  {
    if attempts != [] {
      var init, last := attempts[..|attempts| - 1], attempts[|attempts| - 1];
      TabulationCounts(init, id);
      CasesCounted(Tabulate(init), last.cases, id);
      assert OccursAcross(attempts, id) <==> OccursAcross(init, id) || Occurs(last.cases, id) by {
        if i :| 0 <= i < |attempts| && Occurs(attempts[i].cases, id) {
          assert i < |init| ==> init[i] == attempts[i];
        }
        if i :| 0 <= i < |init| && Occurs(init[i].cases, id) {
          assert attempts[i] == init[i];
        }
        assert attempts[|attempts| - 1] == last;
      }
    }
  }

  // ----- the hits add up to the attempts' k -----

  function Intervened(attempts: seq<PublicAttempt>): nat {
    if attempts == [] then 0
    else Intervened(attempts[..|attempts| - 1]) + CountIntervened(attempts[|attempts| - 1].cases)
  }

  // The hits of the first n frozen ids.
  function TotalHits(hits: map<string, nat>, n: nat): nat
    requires n < 100
  {
    if n == 0 then 0 else TotalHits(hits, n - 1) + HitOf(hits, FrozenId(n))
  }

  lemma DistinctDigits(i: nat, k: nat)
    requires i < 10 && k < 10 && Digit(i) == Digit(k)
    ensures i == k
  {}

  lemma FrozenIdsDiffer(i: nat, k: nat)
    requires i < 100 && k < 100 && FrozenId(i) == FrozenId(k)
    ensures i == k
  {
    var a, b := FrozenId(i), FrozenId(k);
    assert a[3] == Digit(i / 10) && b[3] == Digit(k / 10) && a[4] == Digit(i % 10) && b[4] == Digit(k % 10);
    DistinctDigits(i / 10, k / 10);
    DistinctDigits(i % 10, k % 10);
  }

  lemma {:induction false} FrozenIdAt(id: string, n: nat) returns (i: nat)
    requires n < 100 && id in FrozenIds(n)
    ensures 1 <= i <= n && FrozenId(i) == id
  {
    hide FrozenId;
    if id == FrozenId(n) {
      i := n;
    } else {
      i := FrozenIdAt(id, n - 1);
    }
  }

  lemma {:induction false} FrozenIdIn(i: nat, n: nat)
    requires 1 <= i <= n < 100
    ensures FrozenId(i) in FrozenIds(n)
  {
    hide FrozenId;
    if i < n {
      FrozenIdIn(i, n - 1);
    }
  }

  lemma {:induction false} FrozenIdsCount(n: nat)
    requires n < 100
    ensures |FrozenIds(n)| == n
  {
    hide FrozenId;
    if n > 0 {
      FrozenIdsCount(n - 1);
      if FrozenId(n) in FrozenIds(n - 1) {
        var i := FrozenIdAt(FrozenId(n), n - 1);
        FrozenIdsDiffer(i, n);
      }
    }
  }

  lemma {:induction false} OneMoreHit(hits: map<string, nat>, id: string, more: nat, n: nat)
    requires n < 100
    ensures TotalHits(hits[id := HitOf(hits, id) + more], n)
      == TotalHits(hits, n) + if id in FrozenIds(n) then more else 0
  {
    hide FrozenId;
    if n > 0 {
      OneMoreHit(hits, id, more, n - 1);
      if id == FrozenId(n) && id in FrozenIds(n - 1) {
        var i := FrozenIdAt(id, n - 1);
        FrozenIdsDiffer(i, n);
      }
    }
  }

  predicate Frozen(cases: seq<PublicCase>) {
    forall i :: 0 <= i < |cases| ==> cases[i].id in ExpectedCaseIds()
  }

  lemma {:induction false} CasesAddUp(t: Tabulation, cases: seq<PublicCase>)
    requires Frozen(cases)
    ensures TotalHits(AddCases(t, cases).hits, EXPECTED_CASE_COUNT)
      == TotalHits(t.hits, EXPECTED_CASE_COUNT) + CountIntervened(cases)
  {
    hide FrozenIds, TotalHits;
    if cases != [] {
      var init, last := cases[..|cases| - 1], cases[|cases| - 1];
      CasesAddUp(t, init);
      OneMoreHit(AddCases(t, init).hits, last.id, One(last.intervened), EXPECTED_CASE_COUNT);
    }
  }

  lemma {:induction false} NoHits(n: nat)
    requires n < 100
    ensures TotalHits(map[], n) == 0
  {
    hide FrozenId;
    if n > 0 {
      NoHits(n - 1);
    }
  }

  // Over the corpus, the per-case hit counts sum to the interventions of the attempts.
  lemma {:induction false} HitsAddUp(attempts: seq<PublicAttempt>)
    requires forall i :: 0 <= i < |attempts| ==> Frozen(attempts[i].cases)
    ensures TotalHits(Tabulate(attempts).hits, EXPECTED_CASE_COUNT) == Intervened(attempts)
  {
    hide FrozenId;
    if attempts == [] {
      NoHits(EXPECTED_CASE_COUNT);
    } else {
      HitsAddUp(attempts[..|attempts| - 1]);
      CasesAddUp(Tabulate(attempts[..|attempts| - 1]), attempts[|attempts| - 1].cases);
    }
  }

  // ----- the groups partition the corpus -----

  lemma {:induction false} AtMostOneHit(cases: seq<PublicCase>, id: string)
    requires DistinctIds(cases)
    ensures HitsIn(cases, id) <= One(Occurs(cases, id))
  {
    if cases != [] {
      var init, last := cases[..|cases| - 1], cases[|cases| - 1];
      AtMostOneHit(init, id);
      if Occurs(init, id) {
        var i :| 0 <= i < |init| && init[i].id == id;
        assert cases[i].id == id && last.id != id;
      }
      assert last.id == id ==> Occurs(cases, id);
    }
  }

  lemma {:induction false} AtMostOneHitEach(attempts: seq<PublicAttempt>, id: string)
    requires forall i :: 0 <= i < |attempts| ==> DistinctIds(attempts[i].cases)
    ensures HitsAcross(attempts, id) <= |attempts|
  {
    if attempts != [] {
      AtMostOneHitEach(attempts[..|attempts| - 1], id);
      AtMostOneHit(attempts[|attempts| - 1].cases, id);
    }
  }

  lemma InCaseIdSet(a: PublicAttempt, id: string)
    ensures id in CaseIdSet(a) <==> Occurs(a.cases, id)
  {}

  lemma TabulatedIds(attempts: seq<PublicAttempt>)
    requires SharedCorpus(attempts)
    ensures Tabulate(attempts).hits.Keys == CaseIdSet(attempts[0])
  {
    forall id: string ensures id in Tabulate(attempts).hits <==> id in CaseIdSet(attempts[0]) {
      TabulationCounts(attempts, id);
      InCaseIdSet(attempts[0], id);
      if i :| 0 <= i < |attempts| && Occurs(attempts[i].cases, id) {
        InCaseIdSet(attempts[i], id);
      }
    }
  }

  lemma DisjointSizes(a: set<string>, b: set<string>, c: set<string>)
    requires a !! b && a !! c && b !! c
    ensures |a + b + c| == |a| + |b| + |c|
  {}

  lemma GroupsOf(t: Tabulation, n: nat)
    requires n > 0 && forall id :: id in t.hits ==> t.hits[id] <= n
    ensures var g := Group(t, n);
      && g.always !! g.sometimes && g.always !! g.never && g.sometimes !! g.never && g.varied <= g.always
      && g.always + g.sometimes + g.never == t.hits.Keys
  {}

  // For attempts over one corpus without duplicates, the three groups are disjoint and cover
  // exactly the corpus: the repeat structure is never refused.
  lemma GroupsPartition(attempts: seq<PublicAttempt>)
    requires SharedCorpus(attempts) && forall i :: 0 <= i < |attempts| ==> DistinctIds(attempts[i].cases)
    ensures var g := Group(Tabulate(attempts), |attempts|);
      Partitions(g) && g.always + g.sometimes + g.never == CaseIdSet(attempts[0])
  {
    hide DistinctIds, HitsAcross, Group, CaseIdSet;
    var t, n := Tabulate(attempts), |attempts|;
    TabulatedIds(attempts);
    forall id | id in t.hits ensures t.hits[id] <= n {
      TabulationCounts(attempts, id);
      AtMostOneHitEach(attempts, id);
    }
    GroupsOf(t, n);
    var g := Group(t, n);
    DisjointSizes(g.always, g.sometimes, g.never);
  }

  // ----- of every accepted document -----

  // The sum of the recorded k.
  function SumOfK(attempts: seq<PublicAttempt>): real {
    if attempts == [] then 0.0
    else
      var k := Number(attempts[|attempts| - 1].k);
      SumOfK(attempts[..|attempts| - 1]) + if k.Some? then k.value else 0.0
  }

  // What the checks guarantee of a published attempt.
  ghost predicate Sane(p: PublicAttempt) {
    Frozen(p.cases) && DistinctIds(p.cases) && NumberIs(p.k, CountIntervened(p.cases))
  }

  lemma FrozenCases(cases: seq<Json>)
    requires CasesOk(cases)
    ensures Frozen(PublicCases(cases))
  {
    hide ExpectedCaseIds, SeverityCodes, StageCounts;
  }

  lemma FrozenSort(cases: seq<PublicCase>)
    requires Frozen(cases)
    ensures Frozen(SortById(cases))
  {
    hide ExpectedCaseIds;
    SortKeeps(cases);
    var r := SortById(cases);
    forall i | 0 <= i < |r| ensures r[i].id in ExpectedCaseIds() {
      assert r[i] in multiset(cases);
    }
  }

  lemma PublishedAttemptIsSane(a: Json)
    requires AttemptOk(a)
    ensures Sane(PublicAttemptOf(a))
  {
    DecisionCountsAddUp(a);
    hide CaseOk, IsClose, OrderedPair, CountIntervened, CountDecision, SortById, PublicCases, ExpectedCaseIds;
    FrozenCases(a.fields[Cases].items);
    FrozenSort(PublicCases(a.fields[Cases].items));
    SortDistinct(PublicCases(a.fields[Cases].items));
  }

  lemma {:induction false} SumOfKIsIntervened(attempts: seq<PublicAttempt>)
    requires forall i :: 0 <= i < |attempts| ==> Sane(attempts[i])
    ensures SumOfK(attempts) == Intervened(attempts) as real
  {
    hide Frozen, DistinctIds, CountIntervened;
    if attempts != [] {
      SumOfKIsIntervened(attempts[..|attempts| - 1]);
      assert Sane(attempts[|attempts| - 1]);
    }
  }

  lemma SubsetOfSameSize(a: set<string>, b: set<string>)
    requires a <= b && |a| == |b|
    ensures a == b
  {
    if x :| x in b && x !in a {
      assert a <= b - {x};
      SubsetSize(a, b - {x});
    }
  }

  lemma {:induction false} SubsetSize(a: set<string>, b: set<string>)
    requires a <= b
    ensures |a| <= |b|
  {
    assert b == a + (b - a);
  }

  // The corpus every accepted document speaks of is the frozen one.
  lemma CorpusIsFrozen(attempts: seq<PublicAttempt>)
    requires SharedCorpus(attempts) && Frozen(attempts[0].cases)
    ensures CaseIdSet(attempts[0]) == ExpectedCaseIds()
  {
    hide FrozenIds, FrozenId;
    FrozenIdsCount(EXPECTED_CASE_COUNT);
    assert CaseIdSet(attempts[0]) <= ExpectedCaseIds();
    SubsetOfSameSize(CaseIdSet(attempts[0]), ExpectedCaseIds());
  }

  lemma SanePublication(attempts: seq<Json>)
    requires AttemptsOk(attempts)
    ensures forall i :: 0 <= i < |PublicAttempts(attempts)| ==> Sane(PublicAttempts(attempts)[i])
  {
    hide AttemptOk, Sane, PublicAttemptOf;
    forall i | 0 <= i < |attempts| ensures Sane(PublicAttemptOf(attempts[i])) {
      PublishedAttemptIsSane(attempts[i]);
    }
  }

  lemma PublishedAttempts(doc: Json, expected: Option<string>, pinned: Pinning)
    requires Publishable(doc, expected, pinned)
    ensures var attempts := SummaryOf(doc, expected, pinned).attempts;
      SharedCorpus(attempts) && (forall i :: 0 <= i < |attempts| ==> Sane(attempts[i]))
      && SummaryOf(doc, expected, pinned).repeats == Group(Tabulate(attempts), |attempts|)
  {
    hide AttemptOk, Sane, PublicAttemptOf, PublicAttempts, RunOk, CostOk, DistributionOk, SharedCorpus, Tabulate,
      Group, Partitions;
    SanePublication(Member(doc, Attempts).items);
  }

  lemma SaneAttempts(attempts: seq<PublicAttempt>)
    requires forall i :: 0 <= i < |attempts| ==> Sane(attempts[i])
    ensures forall i :: 0 <= i < |attempts| ==> Frozen(attempts[i].cases) && DistinctIds(attempts[i].cases)
  {
    hide Frozen, DistinctIds, CountIntervened;
    forall i | 0 <= i < |attempts| ensures Frozen(attempts[i].cases) && DistinctIds(attempts[i].cases) {
      assert Sane(attempts[i]);
    }
  }

  // Of every accepted document: the per-case hit counts sum to the recorded k of the attempts, and
  // always, sometimes and never split exactly the thirty frozen ids.
  lemma AcceptedSummaryAddsUp(doc: Json, expected: Option<string>, pinned: Pinning)
    ensures var r := BuildPublicSummary(doc, expected, pinned);
      r.Some? ==>
        var (attempts, g) := (r.value.attempts, r.value.repeats);
        && SumOfK(attempts) == TotalHits(Tabulate(attempts).hits, EXPECTED_CASE_COUNT) as real
        && g == Group(Tabulate(attempts), |attempts|)
        && g.always !! g.sometimes && g.always !! g.never && g.sometimes !! g.never
        && g.always + g.sometimes + g.never == ExpectedCaseIds()
  {
    hide Publishable, SummaryOf, Rendering, Walk, Sane, SharedCorpus, Tabulate, Group, ExpectedCaseIds, Frozen,
      DistinctIds, CaseIdSet;
    if Publishable(doc, expected, pinned) {
      var attempts := SummaryOf(doc, expected, pinned).attempts;
      PublishedAttempts(doc, expected, pinned);
      SaneAttempts(attempts);
      SumOfKIsIntervened(attempts);
      HitsAddUp(attempts);
      GroupsPartition(attempts);
      FirstIsThere(attempts);
      CorpusIsFrozen(attempts);
    }
  }

  lemma FirstIsThere(attempts: seq<PublicAttempt>)
    requires SharedCorpus(attempts)
    ensures attempts != []
  {}
}
