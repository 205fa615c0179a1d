/** What the checks on the cases, attempts, costs and counts of a session document mean, in terms of its
    fields, words and numbers, and of what these numbers must add up to. */
module SummaryChecks {
  import opened Contracts
  import opened Json
  import opened PublicSummary
  import opened SummaryTheorems
  import opened SummaryMeaning
  import Statistics

  // ----- one case -----

  ghost predicate Natural(j: Json) {
    j.Integer? && j.int_ >= 0
  }

  ghost predicate PerStage(j: Json) {
    && j.Object? && j.fields.Keys == {AiTriageStage, SynthesizeStage}
    && Natural(j.fields[AiTriageStage]) && Natural(j.fields[SynthesizeStage])
  }

  ghost predicate ADecision(j: Json) {
    j == Text("approve") || j == Text("request_more_info") || j == Text("escalate")
  }

  ghost predicate GoodCase(c: Json) {
    && c.Object?
    && c.fields.Keys == {CaseId, AppropriateAction, ClassificationKey, FinalDecision, ProposalDecision, ProposalNote,
                         GuardrailOverrode, ProviderCalls, RetriesByStage, Findings, SystemFindings, TriageConcerns}
    && (exists i :: 1 <= i <= 30 && c.fields[CaseId] == Text(FrozenId(i)))
    && (c.fields[ClassificationKey] == Text("intervention") || c.fields[ClassificationKey] == Text("non_intervention"))
    && ADecision(c.fields[FinalDecision]) && ADecision(c.fields[ProposalDecision])
    && c.fields[GuardrailOverrode].Boolean? && Natural(c.fields[ProviderCalls]) && PerStage(c.fields[RetriesByStage])
    && c.fields[SystemFindings].List? && c.fields[TriageConcerns].List?
    && forall j :: j in c.fields[TriageConcerns].items ==>
         j.Object? && (Member(j, CodeKey) == Text("X1") || Member(j, CodeKey) == Text("X2"))
  }

  lemma FrozenIff(j: Json)
    ensures j.Text? && j.text in ExpectedCaseIds() <==> exists i :: 1 <= i <= 30 && j == Text(FrozenId(i))
  {
    hide FrozenId, FrozenIds;
    if j.Text? && j.text in ExpectedCaseIds() {
      var i := FrozenIdAt(j.text, EXPECTED_CASE_COUNT);
    }
    if i :| 1 <= i <= 30 && j == Text(FrozenId(i)) {
      FrozenIdIn(i, EXPECTED_CASE_COUNT);
    }
  }

  lemma GoodCaseIff(c: Json)
    ensures CaseOk(c) <==> GoodCase(c)
  {
    hide ExpectedCaseIds, FrozenId;
    if c.Object? && CaseId in c.fields {
      FrozenIff(c.fields[CaseId]);
    }
    if c.Object? && TriageConcerns in c.fields && c.fields[TriageConcerns].List? {
      ConcernsIff(c.fields[TriageConcerns].items);
    }
  }

  lemma ConcernsIff(items: seq<Json>)
    ensures (forall i :: 0 <= i < |items| ==> IsConcern(items[i])) <==>
      forall j :: j in items ==> j.Object? && (Member(j, CodeKey) == Text("X1") || Member(j, CodeKey) == Text("X2"))
  {
    hide Member;
    if forall j :: j in items ==> j.Object? && (Member(j, CodeKey) == Text("X1") || Member(j, CodeKey) == Text("X2")) {
      forall i | 0 <= i < |items| ensures IsConcern(items[i]) { assert items[i] in items; }
    }
  }

  // ----- the corpus of an attempt -----

  // The thirty frozen cases, in any order.
  ghost predicate EachOnce(cs: seq<Json>) {
    |cs| == 30 && forall i :: 1 <= i <= 30 ==> HoldsCase(cs, FrozenId(i))
  }

  ghost predicate HoldsCase(cs: seq<Json>, id: string) {
    exists k :: 0 <= k < |cs| && Member(cs[k], CaseId) == Text(id)
  }

  ghost function Ids(cases: seq<PublicCase>): set<string> {
    set i | 0 <= i < |cases| :: cases[i].id
  }

  lemma {:induction false} DistinctIff(cases: seq<PublicCase>)
    ensures |Ids(cases)| <= |cases| && (DistinctIds(cases) <==> |Ids(cases)| == |cases|)
  {
    if cases == [] {
      assert Ids(cases) == {};
    } else {
      var n := |cases| - 1;
      var init := cases[..n];
      DistinctIff(init);
      IdsGrow(cases);
      DistinctGrow(cases);
    }
  }

  lemma IdsGrow(cases: seq<PublicCase>)
    requires cases != []
    ensures Ids(cases) == Ids(cases[..|cases| - 1]) + {cases[|cases| - 1].id}
  {
    var n := |cases| - 1;
    forall id ensures id in Ids(cases) <==> id in Ids(cases[..n]) || id == cases[n].id {
      if id in Ids(cases) {
        var i :| 0 <= i < |cases| && cases[i].id == id;
        assert i < n ==> cases[..n][i].id == id;
      }
      if id in Ids(cases[..n]) {
        var i :| 0 <= i < n && cases[..n][i].id == id;
        assert cases[i].id == id;
      }
    }
  }

  lemma DistinctGrow(cases: seq<PublicCase>)
    requires cases != []
    ensures DistinctIds(cases)
      <==> DistinctIds(cases[..|cases| - 1]) && cases[|cases| - 1].id !in Ids(cases[..|cases| - 1])
  {
    var n := |cases| - 1;
    var init := cases[..n];
    assert forall i :: 0 <= i < n ==> init[i] == cases[i];
    if DistinctIds(init) && cases[n].id !in Ids(init) {
      forall i, k | 0 <= i < k < |cases| ensures cases[i].id != cases[k].id {
        assert init[i].id in Ids(init);
      }
    }
  }

  lemma HoldsIff(cs: seq<Json>, id: string)
    requires CasesOk(cs)
    ensures HoldsCase(cs, id) <==> id in Ids(PublicCases(cs))
  {
    hide CaseOk, PublicCaseOf;
    CasesInOrder(cs);
    if k :| 0 <= k < |cs| && Member(cs[k], CaseId) == Text(id) {
      assert PublicCases(cs)[k].id == id;
    }
  }

  lemma FrozenIdsOnly(cs: seq<Json>)
    requires CasesOk(cs)
    ensures Ids(PublicCases(cs)) <= ExpectedCaseIds()
  {
    hide CaseOk, PublicCaseOf, ExpectedCaseIds;
    FrozenCases(cs);
  }

  // Distinct ids over the whole corpus are the same as each frozen case once.
  lemma EachOnceIff(cs: seq<Json>)
    requires CasesOk(cs)
    ensures EachOnce(cs) <==> DistinctIds(PublicCases(cs)) && |Ids(PublicCases(cs))| == 30
  {
    hide CaseOk, PublicCases, PublicCaseOf, DistinctIds, HoldsCase, FrozenIds, FrozenId, Ids;
    AsManyCases(cs);
    DistinctIff(PublicCases(cs));
    FrozenIdsOnly(cs);
    FrozenIdsCount(EXPECTED_CASE_COUNT);
    var ids := Ids(PublicCases(cs));
    if EachOnce(cs) {
      forall id | id in ExpectedCaseIds() ensures id in ids {
        var i := FrozenIdAt(id, EXPECTED_CASE_COUNT);
        HoldsIff(cs, FrozenId(i));
      }
      assert ids == ExpectedCaseIds();
    }
    if DistinctIds(PublicCases(cs)) && |ids| == 30 {
      SubsetOfSameSize(ids, ExpectedCaseIds());
      forall i | 1 <= i <= 30 ensures HoldsCase(cs, FrozenId(i)) {
        FrozenIdIn(i, EXPECTED_CASE_COUNT);
        HoldsIff(cs, FrozenId(i));
      }
    }
  }

  // ----- one attempt -----

  ghost predicate GoodCases(cs: seq<Json>) {
    forall i :: 0 <= i < |cs| ==> GoodCase(cs[i])
  }

  // The positions of the cases that are classified as interventions.
  ghost function Interventions(cs: seq<Json>): set<int> {
    set i | 0 <= i < |cs| && Member(cs[i], ClassificationKey) == Text("intervention")
  }

  function Larger(x: real, y: real): real {
    if x < y then y else x
  }

  function Size(x: real): real {
    Larger(x, -x)
  }

  // The two numbers differ by no more than a millionth of a millionth, of the larger one if that
  // exceeds one.
  ghost predicate Near(a: real, b: real) {
    Size(a - b) * 1000000000000.0 <= Larger(1.0, Larger(Size(a), Size(b)))
  }

  lemma NearIff(a: real, b: real)
    ensures IsClose(a, b) <==> Near(a, b)
  {}

  ghost predicate Interval(j: Json) {
    && j.List? && |j.items| == 2
    && exists low: real, high: real :: low <= high && Says(j.items[0], low) && Says(j.items[1], high)
  }

  // A number that is not a truth value.
  ghost predicate Says(j: Json, x: real) {
    j == Float(x) || (j.Integer? && j.int_ as real == x)
  }

  lemma IntervalIff(j: Json)
    ensures OrderedPair(j) <==> Interval(j)
  {
    if OrderedPair(j) {
      assert Says(j.items[0], Number(j.items[0]).value) && Says(j.items[1], Number(j.items[1]).value);
    }
  }

  // A valid attempt over the thirty frozen cases, that records how many of them are interventions,
  // their proportion, and an interval.
  ghost predicate GoodAttempt(a: Json) {
    && a.Object?
    && a.fields.Keys == {Index, Type, StartedUtc, EndedUtc, Cases, HitsK, SizeN, PointEstimate, WilsonCi95}
    && a.fields[Type] == Text("valid") && a.fields[Cases].List?
    && GoodCases(a.fields[Cases].items) && EachOnce(a.fields[Cases].items)
    && NumberIs(a.fields[SizeN], 30) && NumberIs(a.fields[HitsK], |Interventions(a.fields[Cases].items)|)
    && (exists x: real ::
          Says(a.fields[PointEstimate], x) && Near(x, |Interventions(a.fields[Cases].items)| as real / 30.0))
    && Interval(a.fields[WilsonCi95])
  }

  lemma GoodCasesIff(cs: seq<Json>)
    ensures CasesOk(cs) <==> GoodCases(cs)
  {
    hide CaseOk, GoodCase;
    forall i | 0 <= i < |cs| ensures CaseOk(cs[i]) <==> GoodCase(cs[i]) {
      GoodCaseIff(cs[i]);
    }
  }

  lemma InterventionsGrow(cs: seq<Json>)
    requires cs != []
    ensures var n := |cs| - 1;
      |Interventions(cs)| == |Interventions(cs[..n])| +
      if Member(cs[n], ClassificationKey) == Text("intervention") then 1 else 0
  {
    hide Member;
    var n := |cs| - 1;
    var less := Interventions(cs[..n]);
    var here := if Member(cs[n], ClassificationKey) == Text("intervention") then {n} else {};
    assert Interventions(cs) == less + here && less !! here;
  }

  lemma {:induction false} InterventionsAreCounted(cs: seq<Json>)
    requires CasesOk(cs)
    ensures CountIntervened(PublicCases(cs)) == |Interventions(cs)|
  {
    hide CaseOk, PublicCaseOf, Interventions;
    if cs == [] {
      NoInterventions();
    } else {
      var n := |cs| - 1;
      InterventionsAreCounted(cs[..n]);
      InterventionsGrow(cs);
      CaseSaysSo(cs[n]);
      assert PublicCases(cs)[..n] == PublicCases(cs[..n]);
    }
  }

  lemma NoInterventions()
    ensures Interventions([]) == {}
  {}

  lemma PointIff(j: Json, rate: real)
    ensures IsNumber(j) && IsClose(Number(j).value, rate) <==> exists x: real :: Says(j, x) && Near(x, rate)
  {
    hide IsClose, Near;
    if IsNumber(j) {
      NearIff(Number(j).value, rate);
      assert Says(j, Number(j).value);
    }
  }

  // The checks on an attempt, over the whole corpus.
  lemma GoodAttemptIff(a: Json)
    ensures AttemptOk(a) && |Ids(PublicCases(CasesOf(a)))| == 30 <==> GoodAttempt(a)
  {
    hide CasesOk, GoodCases, EachOnce, PublicCases, DistinctIds, CountIntervened, Interventions, IsClose, Near, Says,
      OrderedPair, Interval, Ids;
    if HasExactly(a, ATTEMPT_FIELDS) && a.fields[Cases].List? {
      var cs := a.fields[Cases].items;
      GoodCasesIff(cs);
      IntervalIff(a.fields[WilsonCi95]);
      if CasesOk(cs) {
        EachOnceIff(cs);
        AsManyCases(cs);
        DistinctIff(PublicCases(cs));
        InterventionsAreCounted(cs);
        PointIff(a.fields[PointEstimate], |Interventions(cs)| as real / 30.0);
      }
    }
  }

  // ----- all attempts -----

  ghost predicate GoodAttempts(attempts: seq<Json>) {
    forall i :: 0 <= i < |attempts| ==> GoodAttempt(attempts[i])
  }

  lemma SameIds(a: Json)
    requires AttemptOk(a)
    ensures CasesOk(CasesOf(a)) && CaseIdSet(PublicAttemptOf(a)) == Ids(PublicCases(CasesOf(a)))
  {
    hide CasesOk, RateOk, PublicCases, SortById, CountDecision;
    SourceCases(a);
    var cases := PublicCases(a.fields[Cases].items);
    forall id ensures id in CaseIdSet(PublicAttemptOf(a)) <==> id in Ids(cases) {
      SortedOccurs(cases, id);
    }
  }

  // Attempts that pass their checks and share a corpus of thirty are good attempts.
  lemma GoodAttemptsIff(attempts: seq<Json>)
    requires attempts != []
    ensures AttemptsOk(attempts) && SharedCorpus(PublicAttempts(attempts)) <==> GoodAttempts(attempts)
  {
    hide AttemptOk, GoodAttempt, PublicAttemptOf, CaseIdSet, Ids, PublicCases, CasesOf, ExpectedCaseIds, CasesOk;
    forall i | 0 <= i < |attempts|
      ensures GoodAttempt(attempts[i]) ==> AttemptOk(attempts[i])
      ensures AttemptOk(attempts[i]) ==>
        (|CaseIdSet(PublicAttemptOf(attempts[i]))| == 30 <==> GoodAttempt(attempts[i]))
        && CaseIdSet(PublicAttemptOf(attempts[i])) <= ExpectedCaseIds()
    {
      GoodAttemptIff(attempts[i]);
      if AttemptOk(attempts[i]) {
        SameIds(attempts[i]);
        FrozenIdsOnly(CasesOf(attempts[i]));
      }
    }
    if AttemptsOk(attempts) && SharedCorpus(PublicAttempts(attempts)) {
      assert forall i :: 0 <= i < |attempts| ==> PublicAttempts(attempts)[i] == PublicAttemptOf(attempts[i]);
      assert PublicAttempts(attempts)[0] == PublicAttemptOf(attempts[0]);
    }
    if GoodAttempts(attempts) {
      FrozenSize();
      forall i | 0 <= i < |attempts| ensures CaseIdSet(PublicAttempts(attempts)[i]) == ExpectedCaseIds() {
        assert PublicAttempts(attempts)[i] == PublicAttemptOf(attempts[i]);
        SubsetOfSameSize(CaseIdSet(PublicAttemptOf(attempts[i])), ExpectedCaseIds());
      }
    }
  }

  lemma FrozenSize()
    ensures |ExpectedCaseIds()| == 30
  {
    FrozenIdsCount(EXPECTED_CASE_COUNT);
  }

  // ----- what the costs add up to -----

  ghost function Amount(j: Json): int {
    if j.Integer? then j.int_ else 0
  }

  ghost function Sum(xs: seq<int>): int {
    if xs == [] then 0 else Sum(xs[..|xs| - 1]) + xs[|xs| - 1]
  }

  ghost function Calls(cs: seq<Json>): seq<int> {
    seq(|cs|, i requires 0 <= i < |cs| => Amount(Member(cs[i], ProviderCalls)))
  }

  ghost function Retries(cs: seq<Json>, stage: Key): seq<int> {
    seq(|cs|, i requires 0 <= i < |cs| => Amount(Member(Member(cs[i], RetriesByStage), stage)))
  }

  // The cases of all attempts, one after the other.
  ghost function EveryCase(attempts: seq<Json>): seq<Json> {
    if attempts == [] then [] else EveryCase(attempts[..|attempts| - 1]) + CasesOf(attempts[|attempts| - 1])
  }

  lemma {:induction false} SumJoins(xs: seq<int>, ys: seq<int>)
    ensures Sum(xs + ys) == Sum(xs) + Sum(ys)
  {
    if ys == [] {
      assert xs + ys == xs;
    } else {
      var n := |ys| - 1;
      SumJoins(xs, ys[..n]);
      assert (xs + ys)[..|xs + ys| - 1] == xs + ys[..n];
    }
  }

  lemma {:induction false} CallsAreSummed(cs: seq<Json>)
    requires CasesOk(cs)
    ensures CaseCalls(PublicCases(cs)) == Sum(Calls(cs))
  {
    hide CaseOk, PublicCaseOf;
    if cs != [] {
      var n := |cs| - 1;
      CallsAreSummed(cs[..n]);
      CallsOfCase(cs[n]);
      assert PublicCases(cs)[..n] == PublicCases(cs[..n]) && Calls(cs)[..n] == Calls(cs[..n]);
    }
  }

  lemma CallsOfCase(c: Json)
    requires CaseOk(c)
    ensures PublicCaseOf(c).providerCalls == Amount(Member(c, ProviderCalls))
    ensures forall stage :: stage in STAGE_FIELDS ==>
      c.fields[RetriesByStage].fields[stage].int_ == Amount(Member(Member(c, RetriesByStage), stage))
  {
    hide ExpectedCaseIds, SeverityCodes, IsConcern, IsDecision;
  }

  lemma FirstCasesOk(cs: seq<Json>)
    requires CasesOk(cs) && cs != []
    ensures CasesOk(cs[..|cs| - 1]) && CaseOk(cs[|cs| - 1])
  {
    hide CaseOk;
  }

  lemma RetriesGrow(cs: seq<Json>, stage: Key)
    ensures |Retries(cs, stage)| == |cs|
    ensures cs != [] ==>
      var (r, n) := (Retries(cs, stage), |cs| - 1);
      r[..n] == Retries(cs[..n], stage) && r[n] == Amount(Member(Member(cs[n], RetriesByStage), stage))
  {
    hide Member, Amount;
  }

  lemma {:induction false} RetriesAreSummed(cs: seq<Json>, stage: Key)
    requires CasesOk(cs) && stage in STAGE_FIELDS
    ensures CaseRetries(cs, stage) == Sum(Retries(cs, stage))
  {
    hide CaseOk, CasesOk, Member, Amount, STAGE_FIELDS, Retries;
    RetriesGrow(cs, stage);
    if cs != [] {
      var n := |cs| - 1;
      FirstCasesOk(cs);
      RetriesAreSummed(cs[..n], stage);
      CallsOfCase(cs[n]);
    }
  }

  lemma {:induction false} AllCallsAreSummed(attempts: seq<Json>)
    requires AttemptsOk(attempts)
    ensures AttemptCalls(PublicAttempts(attempts)) == Sum(Calls(EveryCase(attempts)))
  {
    hide AttemptOk, PublicAttemptOf, Calls, Sum, CasesOf;
    if attempts == [] {
      NoCalls();
    } else {
      var n := |attempts| - 1;
      AllCallsAreSummed(attempts[..n]);
      AttemptCallsAreSummed(attempts[n]);
      assert PublicAttempts(attempts)[..n] == PublicAttempts(attempts[..n]);
      SumJoins(Calls(EveryCase(attempts[..n])), Calls(CasesOf(attempts[n])));
      CallsJoined(EveryCase(attempts[..n]), CasesOf(attempts[n]));
    }
  }

  lemma NoCalls()
    ensures Sum(Calls([])) == 0 && forall stage :: Sum(Retries([], stage)) == 0
  {}

  lemma CallsJoined(a: seq<Json>, b: seq<Json>)
    ensures Calls(a + b) == Calls(a) + Calls(b)
    ensures forall stage :: Retries(a + b, stage) == Retries(a, stage) + Retries(b, stage)
  {
    hide Amount, Member;
  }

  lemma AttemptCallsAreSummed(a: Json)
    requires AttemptOk(a)
    ensures CaseCalls(PublicAttemptOf(a).cases) == Sum(Calls(CasesOf(a)))
  {
    hide CasesOk, RateOk, PublicCases, SortById, CountDecision, Calls, Sum, CaseCalls;
    SourceCases(a);
    CallsOfSort(PublicCases(CasesOf(a)));
    CallsAreSummed(CasesOf(a));
  }

  lemma {:induction false} AllRetriesAreSummed(attempts: seq<Json>, stage: Key)
    requires AttemptsOk(attempts) && stage in STAGE_FIELDS
    ensures AttemptRetries(attempts, stage) == Sum(Retries(EveryCase(attempts), stage))
  {
    hide RateOk, Retries, Sum, CaseOk, STAGE_FIELDS;
    if attempts == [] {
      NoCalls();
    } else {
      var n := |attempts| - 1;
      AllRetriesAreSummed(attempts[..n], stage);
      SourceCases(attempts[n]);
      RetriesAreSummed(CasesOf(attempts[n]), stage);
      SumJoins(Retries(EveryCase(attempts[..n]), stage), Retries(CasesOf(attempts[n]), stage));
      CallsJoined(EveryCase(attempts[..n]), CasesOf(attempts[n]));
    }
  }

  // The cost block records the requests of all cases, by stage as well, and the retries of each stage.
  ghost predicate GoodCost(cost: Json, attempts: seq<Json>) {
    && cost.Object?
    && cost.fields.Keys == {ActualCalls, CallsByStage, CeilingNote, MaxCallsPerCase, MaxCallsPerCleanAttempt,
                            RetriesByStage, SessionCallCeiling}
    && PerStage(cost.fields[CallsByStage]) && PerStage(cost.fields[RetriesByStage])
    && var cases, calls, retries := EveryCase(attempts), cost.fields[CallsByStage], cost.fields[RetriesByStage];
    && NumberIs(cost.fields[ActualCalls], Sum(Calls(cases)))
    && Sum(Calls(cases)) == Amount(Member(calls, AiTriageStage)) + Amount(Member(calls, SynthesizeStage))
    && (forall stage :: stage in {AiTriageStage, SynthesizeStage} ==>
          Sum(Retries(cases, stage)) == Amount(Member(retries, stage)))
  }

  lemma NumberIsOne(j: Json, m: int, n: int)
    requires NumberIs(j, m)
    ensures NumberIs(j, n) <==> m == n
  {}

  lemma GoodCostIff(doc: Json)
    requires SessionOk(doc)
    ensures CostOk(doc) <==> GoodCost(Member(doc, CostBlock), Member(doc, Attempts).items)
  {
    hide AttemptOk, PublicAttempts, AttemptCalls, AttemptRetries, EveryCase, Calls, Retries, Sum, SharedCorpus;
    var source := Member(doc, Attempts).items;
    AllCallsAreSummed(source);
    AllRetriesAreSummed(source, AiTriageStage);
    AllRetriesAreSummed(source, SynthesizeStage);
  }

  // ----- the distribution -----

  // The number these digits write, read from the left.
  ghost function Reads(digits: string): Option<nat> {
    if digits == "" then Some(0)
    else
      var head, last := Reads(digits[..|digits| - 1]), digits[|digits| - 1];
      if head.Some? && '0' <= last <= '9' then Some(10 * head.value + (last as int - '0' as int)) else None
  }

  // The usual way to write a number: digits, and no zero in front of others.
  ghost predicate Numeral(t: string, n: nat) {
    t != "" && Reads(t) == Some(n) && (|t| > 1 ==> t[0] != '0')
  }

  lemma DigitReads(i: nat)
    requires i < 10
    ensures '0' <= Digit(i) <= '9' && Digit(i) as int - '0' as int == i
  {}

  lemma ReadsOne(c: char)
    ensures Reads([c]) == if '0' <= c <= '9' then Some((c as int - '0' as int) as nat) else None
  {
    assert [c][..0] == "" && Reads("") == Some(0);
  }

  lemma OneDigit(i: nat, c: char)
    requires i < 10 && '0' <= c <= '9' && c as int - '0' as int == i
    ensures c == Digit(i)
  {
    hide Digit;
    DigitReads(i);
  }

  lemma {:induction false} DecimalIsNumeral(n: nat)
    ensures Numeral(Decimal(n), n) && (n > 0 ==> Decimal(n)[0] != '0')
  {
    hide Digit;
    var t := Decimal(n);
    DigitReads(n % 10);
    if n >= 10 {
      DecimalIsNumeral(n / 10);
      assert t[..|t| - 1] == Decimal(n / 10) && t[0] == Decimal(n / 10)[0];
    } else {
      assert t == [Digit(n)];
      ReadsOne(Digit(n));
    }
  }

  lemma {:induction false} ReadsPositive(t: string)
    requires t != "" && Reads(t).Some? && t[0] != '0'
    ensures Reads(t).value > 0
  {
    if |t| > 1 {
      ReadsPositive(t[..|t| - 1]);
    } else {
      assert t == [t[0]];
      ReadsOne(t[0]);
    }
  }

  lemma {:induction false} NumeralIsDecimal(t: string, n: nat)
    requires Numeral(t, n)
    ensures t == Decimal(n)
  {
    hide Digit;
    var init, last := t[..|t| - 1], t[|t| - 1];
    if |t| == 1 {
      assert t == [last];
      ReadsOne(last);
      OneDigit(n, last);
    } else {
      assert t == init + [last];
      ReadsPositive(init);
      Quotient(Reads(init).value, last as int - '0' as int);
      OneDigit(n % 10, last);
      NumeralIsDecimal(init, n / 10);
    }
  }

  lemma Quotient(q: nat, r: nat)
    requires r < 10
    ensures (10 * q + r) / 10 == q && (10 * q + r) % 10 == r
  {}

  // How a recorded count is written before the slash: an integer in digits, a truth value as its
  // word, a float with a fraction of zero.
  ghost predicate Written(t: string, k: Json, n: nat) {
    match k
    case Integer(_) => Numeral(t, n)
    case Boolean(b) => t == if b then "True" else "False"
    case Float(_) => |t| > 2 && t[|t| - 2..] == ".0" && Numeral(t[..|t| - 2], n)
    case _ => false
  }

  lemma RenderedIff(t: string, k: Json, n: nat)
    requires NumberIs(k, n)
    ensures t == Rendered(k) <==> Written(t, k, n)
  {
    hide Decimal, Numeral, Digit;
    NumeralIff(t, n);
    if k.Float? {
      FloorIsExact(n);
      if |t| > 2 {
        NumeralIff(t[..|t| - 2], n);
        assert t == t[..|t| - 2] + t[|t| - 2..];
      }
      DecimalIsNumeral(n);
      NumeralIsText(Decimal(n), n);
      var d := Decimal(n) + ".0";
      assert d[..|d| - 2] == Decimal(n) && d[|d| - 2..] == ".0";
    }
  }

  // A negative count is written with a sign; no attempt with one is accepted.
  lemma NegativeIsWritten(k: int)
    requires k < 0
    ensures var t := Rendered(Integer(k)); t != "" && t[0] == '-' && Numeral(t[1..], -k)
  {
    hide Decimal, Numeral;
    DecimalIsNumeral(-k);
    assert ("-" + Decimal(-k))[1..] == Decimal(-k);
  }

  lemma NumeralIff(t: string, n: nat)
    ensures Numeral(t, n) <==> t == Decimal(n)
  {
    hide Decimal, Numeral;
    DecimalIsNumeral(n);
    if Numeral(t, n) {
      NumeralIsDecimal(t, n);
    }
  }

  lemma NumeralIsText(t: string, n: nat)
    requires Numeral(t, n)
    ensures t != ""
  {
    hide Reads;
  }

  lemma FloorIsExact(n: nat)
    ensures (n as real).Floor == n
  {}

  // The interventions of each attempt.
  ghost function HitCounts(attempts: seq<Json>): (ks: seq<nat>)
    ensures |ks| == |attempts|
  {
    seq(|attempts|, i requires 0 <= i < |attempts| => |Interventions(CasesOf(attempts[i]))|)
  }

  ghost predicate Rate(j: Json, k: Json, n: nat) {
    && j.Text? && |j.text| > 3 && j.text[|j.text| - 3..] == "/30"
    && Written(j.text[..|j.text| - 3], k, n)
  }

  lemma RateIff(j: Json, k: Json, n: nat)
    requires NumberIs(k, n)
    ensures j == Text(RateText(k)) <==> Rate(j, k, n)
  {
    hide Rendered, Written;
    RenderedIff(Rendered(k), k, n);
    WrittenIsText(Rendered(k), k, n);
    var r := RateText(k);
    assert r[..|r| - 3] == Rendered(k) && r[|r| - 3..] == "/30";
    if j.Text? && |j.text| > 3 {
      RenderedIff(j.text[..|j.text| - 3], k, n);
      assert j.text == j.text[..|j.text| - 3] + j.text[|j.text| - 3..];
    }
  }

  lemma WrittenIsText(t: string, k: Json, n: nat)
    requires Written(t, k, n)
    ensures t != ""
  {
    hide Reads;
  }

  ghost predicate ListsHits(j: Json, ks: seq<nat>) {
    j.List? && |j.items| == |ks| && forall i :: 0 <= i < |ks| ==> NumberIs(j.items[i], ks[i])
  }

  ghost predicate ListsRates(j: Json, attempts: seq<Json>, ks: seq<nat>)
    requires |attempts| == |ks|
  {
    && j.List? && |j.items| == |ks|
    && forall i :: 0 <= i < |ks| ==> Rate(j.items[i], Member(attempts[i], HitsK), ks[i])
  }

  // The distribution lists the counts and the rates of the attempts in order, and their least, greatest
  // and middle count.
  ghost predicate GoodDistribution(dist: Json, attempts: seq<Json>) {
    && dist.Object? && dist.fields.Keys == {MaxK, MedianK, MinK, SizeN, OrderedK, OrderedRates, PoolingNote}
    && NumberIs(dist.fields[SizeN], 30)
    && var ks := HitCounts(attempts);
    && ListsHits(dist.fields[OrderedK], ks) && ListsRates(dist.fields[OrderedRates], attempts, ks)
    && (exists low: nat :: Least(ks, low) && NumberIs(dist.fields[MinK], low))
    && (exists high: nat :: Greatest(ks, high) && NumberIs(dist.fields[MaxK], high))
    && (exists v: nat :: Statistics.Middle(ks, v) && NumberIs(dist.fields[MedianK], v))
  }

  ghost predicate Least(ks: seq<nat>, v: nat) {
    v in ks && forall k :: k in ks ==> v <= k
  }

  ghost predicate Greatest(ks: seq<nat>, v: nat) {
    v in ks && forall k :: k in ks ==> k <= v
  }

  lemma MinIff(j: Json, ks: seq<nat>)
    requires ks != []
    ensures NumberIs(j, Statistics.Min(ks)) <==> exists low: nat :: Least(ks, low) && NumberIs(j, low)
  {
    hide Statistics.Min, NumberIs;
    Statistics.MinIsLeast(ks);
    assert Least(ks, Statistics.Min(ks));
  }

  lemma MaxIff(j: Json, ks: seq<nat>)
    requires ks != []
    ensures NumberIs(j, Statistics.Max(ks)) <==> exists high: nat :: Greatest(ks, high) && NumberIs(j, high)
  {
    hide Statistics.Max, NumberIs;
    Statistics.MaxIsGreatest(ks);
    assert Greatest(ks, Statistics.Max(ks));
  }

  lemma MedianIff(j: Json, ks: seq<nat>)
    requires ks != []
    ensures IsMedian(j, ks) <==> exists v: nat :: Statistics.Middle(ks, v) && NumberIs(j, v)
  {
    hide Statistics.Sorted, Statistics.Middle, NumberIs;
    var s := Statistics.Sorted(ks);
    forall v: nat ensures Statistics.Middle(ks, v)
                <==> v == s[|ks| / 2] || (|ks| % 2 == 0 && v == s[|ks| / 2 - 1]) {
      Statistics.MiddleIff(ks, v);
    }
    if IsMedian(j, ks) {
      if NumberIs(j, s[|ks| / 2]) {
        assert Statistics.Middle(ks, s[|ks| / 2]);
      } else {
        assert Statistics.Middle(ks, s[|ks| / 2 - 1]);
      }
    }
  }

  lemma HitsAreCounts(attempts: seq<Json>)
    requires AttemptsOk(attempts)
    ensures Hits(attempts) == HitCounts(attempts)
    ensures forall i :: 0 <= i < |attempts| ==>
      attempts[i].Object? && HitsK in attempts[i].fields && NumberIs(attempts[i].fields[HitsK], Hits(attempts)[i])
  {
    hide AttemptOk, Interventions, PublicCases, CountIntervened;
    forall i | 0 <= i < |attempts|
      ensures attempts[i].Object? && HitsK in attempts[i].fields && Hits(attempts)[i] == HitCounts(attempts)[i]
      ensures NumberIs(attempts[i].fields[HitsK], Hits(attempts)[i])
    {
      SourceCases(attempts[i]);
      RecordedHits(attempts[i]);
      InterventionsAreCounted(CasesOf(attempts[i]));
    }
  }

  lemma RecordedHits(a: Json)
    requires AttemptOk(a)
    ensures a.Object? && HitsK in a.fields && Cases in a.fields && a.fields[Cases].List?
    ensures CasesOk(a.fields[Cases].items)
    ensures NumberIs(a.fields[HitsK], CountIntervened(PublicCases(a.fields[Cases].items)))
  {
    hide CaseOk, IsClose, OrderedPair, CountIntervened, DistinctIds, PublicCaseOf;
  }

  lemma GoodDistributionIff(doc: Json)
    requires SessionOk(doc)
    ensures DistributionOk(doc) <==> GoodDistribution(Member(doc, DistributionBlock), Member(doc, Attempts).items)
  {
    hide AttemptOk, HitCounts, Hits, RateText, Rate, IsMedian, Statistics.Min, Statistics.Max, Least, Greatest,
      Statistics.Middle, SharedCorpus, PublicAttempts;
    var dist, source := Member(doc, DistributionBlock), Member(doc, Attempts).items;
    HitsAreCounts(source);
    var ks := HitCounts(source);
    if dist.Object? && dist.fields.Keys == DISTRIBUTION_FIELDS {
      MinIff(dist.fields[MinK], ks);
      MaxIff(dist.fields[MaxK], ks);
      MedianIff(dist.fields[MedianK], ks);
      if dist.fields[OrderedRates].List? && |dist.fields[OrderedRates].items| == |ks| {
        forall i | 0 <= i < |ks|
          ensures dist.fields[OrderedRates].items[i] == Text(RateText(source[i].fields[HitsK]))
            <==> Rate(dist.fields[OrderedRates].items[i], Member(source[i], HitsK), ks[i])
        {
          RateIff(dist.fields[OrderedRates].items[i], source[i].fields[HitsK], ks[i]);
        }
      }
    }
  }
}
