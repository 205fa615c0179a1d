/** What a published summary says, in terms of the session document it was made from and of the
    screenings behind it: which fields are copied, what the decision counts count, and what each
    list of the repeat structure holds. */
module SummaryMeaning {
  import opened Contracts
  import opened Json
  import opened PublicSummary
  import opened SummaryTheorems
  import opened RepeatGroups

  // ----- one case -----

  // A published case copies six fields, counts the system findings, and lists the codes of the
  // concerns in order, each once.
  ghost predicate CopyOf(p: Json, c: Json) {
    && c.Object? && SOURCE_CASE_FIELDS <= c.fields.Keys && p.Object?
    && p.fields.Keys == {CaseId, ClassificationKey, FinalDecision, ProposalDecision, ProviderCalls, GuardrailOverrode,
                         SystemFindingCount, TriageSeverityCodes}
    && p.fields[CaseId] == c.fields[CaseId] && p.fields[ClassificationKey] == c.fields[ClassificationKey]
    && p.fields[FinalDecision] == c.fields[FinalDecision] && p.fields[ProposalDecision] == c.fields[ProposalDecision]
    && p.fields[ProviderCalls] == c.fields[ProviderCalls]
    && p.fields[GuardrailOverrode] == c.fields[GuardrailOverrode]
    && c.fields[SystemFindings].List? && p.fields[SystemFindingCount] == Integer(|c.fields[SystemFindings].items|)
    && c.fields[TriageConcerns].List? && p.fields[TriageSeverityCodes].List?
    && ListsCodes(p.fields[TriageSeverityCodes].items, c.fields[TriageConcerns].items)
  }

  ghost predicate ListsCodes(codes: seq<Json>, concerns: seq<Json>) {
    && (forall j :: j in codes <==> exists i :: 0 <= i < |concerns| && Member(concerns[i], CodeKey) == j)
    && (forall i :: 0 <= i < |codes| ==> codes[i].Text?)
    && (forall i, k :: 0 <= i < k < |codes| ==> codes[i] != codes[k] && Before(codes[i].text, codes[k].text))
  }

  lemma CodesAreListed(concerns: seq<Json>)
    requires forall i :: 0 <= i < |concerns| ==> IsConcern(concerns[i])
    ensures ListsCodes(Texts(SeverityCodes(concerns)).items, concerns)
  {
    var words := SeverityCodes(concerns);
    var codes := Texts(words).items;
    CodesAreOrdered();
    assert "X1" in words <==> Mentions(concerns, "X1");
    assert "X2" in words <==> Mentions(concerns, "X2");
    forall j ensures j in codes <==> exists i :: 0 <= i < |concerns| && Member(concerns[i], CodeKey) == j {
      if j == Text("X1") || j == Text("X2") {
        TextsHold(words, j.text);
      } else {
        NoOtherCode(words, concerns, j);
      }
    }
  }

  lemma CodesAreOrdered()
    ensures Before("X1", "X2") && "X1" != "X2"
  {
    assert "X1"[1..] == "1" && "X2"[1..] == "2";
  }

  lemma TextsHold(ts: seq<string>, t: string)
    ensures Text(t) in Texts(ts).items <==> t in ts
  {
    var js := Texts(ts).items;
    if t in ts {
      var i :| 0 <= i < |ts| && ts[i] == t;
      assert js[i] == Text(t);
    }
  }

  lemma NoOtherCode(words: seq<string>, concerns: seq<Json>, j: Json)
    requires forall i :: 0 <= i < |concerns| ==> IsConcern(concerns[i])
    requires j != Text("X1") && j != Text("X2") && forall w :: w in words ==> w == "X1" || w == "X2"
    ensures j !in Texts(words).items
    ensures !exists i :: 0 <= i < |concerns| && Member(concerns[i], CodeKey) == j
  {
    TextsIsList(words);
    forall i | 0 <= i < |words| ensures Texts(words).items[i] != j { assert words[i] in words; }
    forall i | 0 <= i < |concerns| ensures Member(concerns[i], CodeKey) != j { assert IsConcern(concerns[i]); }
  }

  lemma ClassificationIsCopied(j: Json)
    requires j == Text(INTERVENTION) || j == Text(NON_INTERVENTION)
    ensures Text(if j == Text(INTERVENTION) then INTERVENTION else NON_INTERVENTION) == j
  {}

  lemma CaseIsCopied(c: Json)
    requires CaseOk(c)
    ensures CopyOf(PublicCaseJson(PublicCaseOf(c)), c)
  {
    hide SeverityCodes, IsConcern, ListsCodes, ExpectedCaseIds, StageCounts, INTERVENTION, NON_INTERVENTION, Texts;
    ClassificationIsCopied(c.fields[ClassificationKey]);
    CodesAreListed(c.fields[TriageConcerns].items);
    TextsIsList(SeverityCodes(c.fields[TriageConcerns].items));
  }

  lemma TextsIsList(ts: seq<string>)
    ensures Texts(ts).List? && |Texts(ts).items| == |ts|
    ensures forall i :: 0 <= i < |ts| ==> Texts(ts).items[i] == Text(ts[i])
  {}

  // ----- one attempt -----

  // How many of the cases have this word as their final decision.
  ghost function Positions(cases: seq<Json>, word: string): set<int> {
    set i | 0 <= i < |cases| && Member(cases[i], FinalDecision) == Text(word)
  }

  // The counts of an attempt list exactly the words that occur, with the number of cases.
  ghost predicate Counts(counts: Json, cases: seq<Json>) {
    && counts.Object? && counts.fields.Keys
       <= {OtherKey("approve"), OtherKey("escalate"), OtherKey("request_more_info")}
    && (forall word :: word in {"approve", "escalate", "request_more_info"} ==>
          Member(counts, OtherKey(word))
          == if Positions(cases, word) == {} then Null else Integer(|Positions(cases, word)|))
  }

  // A published attempt copies seven fields, is as valid as its source, counts its final decisions,
  // and holds a copy of each case of its source and no others, in the order of their ids.
  ghost predicate AttemptCopyOf(p: Json, a: Json) {
    && a.Object? && ATTEMPT_FIELDS <= a.fields.Keys && p.Object?
    && p.fields.Keys == {Index, Validity, StartedUtc, EndedUtc, HitsK, SizeN, RecordedPointEstimate,
                         RecordedWilsonCi95, FinalDecisionCounts, Cases}
    && p.fields[Index] == a.fields[Index] && p.fields[Validity] == a.fields[Type]
    && p.fields[StartedUtc] == a.fields[StartedUtc] && p.fields[EndedUtc] == a.fields[EndedUtc]
    && p.fields[HitsK] == a.fields[HitsK] && p.fields[SizeN] == a.fields[SizeN]
    && p.fields[RecordedPointEstimate] == a.fields[PointEstimate]
    && p.fields[RecordedWilsonCi95] == a.fields[WilsonCi95]
    && a.fields[Cases].List? && Counts(p.fields[FinalDecisionCounts], a.fields[Cases].items)
    && p.fields[Cases].List? && CasesCopied(p.fields[Cases].items, a.fields[Cases].items)
  }

  ghost predicate CasesCopied(ps: seq<Json>, cs: seq<Json>) {
    && |ps| == |cs| && IdsAscend(ps)
    && (forall i :: 0 <= i < |cs| ==> HasCopy(ps, cs[i])) && (forall j :: 0 <= j < |ps| ==> IsCopy(ps[j], cs))
  }

  ghost predicate HasCopy(ps: seq<Json>, c: Json) {
    exists j :: 0 <= j < |ps| && CopyOf(ps[j], c)
  }

  ghost predicate IsCopy(p: Json, cs: seq<Json>) {
    exists i :: 0 <= i < |cs| && CopyOf(p, cs[i])
  }

  function IdOf(j: Json): string {
    match Member(j, CaseId)
    case Text(t) => t
    case _ => ""
  }

  ghost predicate IdsAscend(ps: seq<Json>) {
    forall j, k :: 0 <= j < k < |ps| ==> IdOf(ps[j]) != IdOf(ps[k]) && Before(IdOf(ps[j]), IdOf(ps[k]))
  }

  lemma PublishedJson(cases: seq<PublicCase>)
    ensures PublicCasesJson(cases).List? && |PublicCasesJson(cases).items| == |cases|
    ensures forall i :: 0 <= i < |cases| ==> PublicCasesJson(cases).items[i] == PublicCaseJson(cases[i])
  {
    hide PublicCaseJson;
  }

  lemma CopiesOfCases(cases: seq<Json>)
    requires CasesOk(cases)
    ensures forall i :: 0 <= i < |cases| ==> CopyOf(PublicCaseJson(PublicCases(cases)[i]), cases[i])
  {
    hide CaseOk, CopyOf, PublicCaseJson, PublicCaseOf;
    forall i | 0 <= i < |cases| ensures CopyOf(PublicCaseJson(PublicCaseOf(cases[i])), cases[i]) {
      CaseIsCopied(cases[i]);
    }
  }

  lemma CasesAreCopied(cases: seq<Json>)
    requires CasesOk(cases) && DistinctIds(PublicCases(cases))
    ensures CasesCopied(PublicCasesJson(SortById(PublicCases(cases))).items, cases)
  {
    hide CaseOk, CopyOf, PublicCaseJson, PublicCaseOf, Before, SortById, PublicCasesJson, PublicCases, CasesOk, IdOf,
      DistinctIds, IdsAscend;
    var all := PublicCases(cases);
    var sorted := SortById(all);
    PublishedJson(sorted);
    var ps := PublicCasesJson(sorted).items;
    AsManyCases(cases);
    SortKeeps(all);
    CopiesOfCases(cases);
    forall i | 0 <= i < |cases| ensures HasCopy(ps, cases[i]) {
      var j := PlaceOf(all, sorted, i);
      assert CopyOf(ps[j], cases[i]);
    }
    forall j | 0 <= j < |ps| ensures IsCopy(ps[j], cases) {
      var i := PlaceOf(sorted, all, j);
      assert CopyOf(ps[j], cases[i]);
    }
    IdsAreAscending(all);
  }

  lemma AsManyCases(cases: seq<Json>)
    requires CasesOk(cases)
    ensures |PublicCases(cases)| == |cases|
  {}

  lemma PlaceOf(a: seq<PublicCase>, b: seq<PublicCase>, i: nat) returns (j: nat)
    requires multiset(a) == multiset(b) && i < |a|
    ensures j < |b| && b[j] == a[i]
  {
    assert a[i] in multiset(b);
    j :| 0 <= j < |b| && b[j] == a[i];
  }

  lemma IdsAreAscending(cases: seq<PublicCase>)
    requires DistinctIds(cases)
    ensures IdsAscend(PublicCasesJson(SortById(cases)).items)
  {
    hide PublicCaseJson, Before, SortById, PublicCasesJson, IdOf;
    var sorted := SortById(cases);
    SortOrders(cases);
    SortDistinct(cases);
    PublishedJson(sorted);
    forall i | 0 <= i < |sorted| ensures IdOf(PublicCaseJson(sorted[i])) == sorted[i].id {
      IdIsPublished(sorted[i]);
    }
  }

  lemma IdIsPublished(c: PublicCase)
    ensures IdOf(PublicCaseJson(c)) == c.id
  {}

  lemma {:induction false} PositionsGrow(cases: seq<Json>, word: string)
    requires cases != []
    ensures var n := |cases| - 1;
      |Positions(cases, word)|
      == |Positions(cases[..n], word)| + if Member(cases[n], FinalDecision) == Text(word) then 1 else 0
  {
    var n := |cases| - 1;
    var less, here := Positions(cases[..n], word), if Member(cases[n], FinalDecision) == Text(word) then {n} else {};
    assert Positions(cases, word) == less + here && less !! here;
  }

  lemma {:induction false} CountsArePositions(cases: seq<Json>, word: string)
    requires CasesOk(cases)
    ensures CountDecision(PublicCases(cases), word) == |Positions(cases, word)|
  {
    hide CaseOk;
    if cases != [] {
      var n := |cases| - 1;
      CountsArePositions(cases[..n], word);
      PositionsGrow(cases, word);
      DecisionIsPublished(cases[n]);
      assert PublicCases(cases)[..n] == PublicCases(cases[..n]);
    }
  }

  lemma DecisionIsPublished(c: Json)
    requires CaseOk(c)
    ensures Member(c, FinalDecision) == Text(PublicCaseOf(c).decision)
  {
    hide ExpectedCaseIds, SeverityCodes, StageCounts, IsConcern;
  }

  // What the three numbers of a published attempt count.
  lemma DecisionsAreCounted(a: Json)
    requires AttemptOk(a)
    ensures var (p, cases) := (PublicAttemptOf(a), a.fields[Cases].items);
      && p.approve == |Positions(cases, "approve")| && p.escalate == |Positions(cases, "escalate")|
      && p.requestMoreInfo == |Positions(cases, "request_more_info")|
  {
    hide CasesOk, RateOk, CountDecision, Positions, SortById, PublicCases;
    CountsArePositions(a.fields[Cases].items, "approve");
    CountsArePositions(a.fields[Cases].items, "escalate");
    CountsArePositions(a.fields[Cases].items, "request_more_info");
  }

  lemma CountsAreListed(a: PublicAttempt, cases: seq<Json>)
    requires a.approve == |Positions(cases, "approve")| && a.escalate == |Positions(cases, "escalate")|
    requires a.requestMoreInfo == |Positions(cases, "request_more_info")|
    ensures Counts(DecisionCounts(a), cases)
  {
    hide Positions;
  }

  lemma AttemptIsCopied(a: Json)
    requires AttemptOk(a)
    ensures AttemptCopyOf(PublicAttemptJson(PublicAttemptOf(a)), a)
  {
    hide CasesOk, IsClose, OrderedPair, CountIntervened, CountDecision, SortById, PublicCases, DecisionCounts,
      PublicCasesJson, Counts, CasesCopied, DistinctIds;
    DecisionsAreCounted(a);
    CountsAreListed(PublicAttemptOf(a), a.fields[Cases].items);
    CasesAreCopied(a.fields[Cases].items);
    PublishedJson(PublicAttemptOf(a).cases);
  }

  // ----- the repeat structure, over the source attempts -----

  function CasesOf(a: Json): seq<Json> {
    match Member(a, Cases)
    case List(items) => items
    case _ => []
  }

  // The attempt has a case of this id that it classifies as an intervention.
  ghost predicate IntervenedAt(a: Json, id: string) {
    exists i :: 0 <= i < |CasesOf(a)|
      && Member(CasesOf(a)[i], CaseId) == Text(id) && Member(CasesOf(a)[i], ClassificationKey) == Text(INTERVENTION)
  }

  // The attempt has a case of this id with these concerns.
  ghost predicate Raises(a: Json, id: string, concerns: seq<Json>) {
    exists i :: 0 <= i < |CasesOf(a)|
      && Member(CasesOf(a)[i], CaseId) == Text(id) && Member(CasesOf(a)[i], TriageConcerns) == List(concerns)
  }

  // Two attempts raise concerns about this id, one with a code that the other one lacks.
  ghost predicate Varies(attempts: seq<Json>, id: string) {
    exists i, k, x, y, code :: 0 <= i < |attempts| && 0 <= k < |attempts|
      && Raises(attempts[i], id, x) && Raises(attempts[k], id, y) && Mentions(x, code) && !Mentions(y, code)
  }

  lemma SourceCases(a: Json)
    requires AttemptOk(a)
    ensures CasesOf(a) == a.fields[Cases].items && CasesOk(CasesOf(a))
  {
    hide CasesOk, RateOk;
  }

  lemma CaseSaysSo(c: Json)
    requires CaseOk(c)
    ensures Member(c, CaseId) == Text(PublicCaseOf(c).id)
    ensures PublicCaseOf(c).intervened <==> Member(c, ClassificationKey) == Text(INTERVENTION)
    ensures Member(c, TriageConcerns).List?
    ensures PublicCaseOf(c).severityCodes == SeverityCodes(Member(c, TriageConcerns).items)
  {
    hide ExpectedCaseIds, SeverityCodes, StageCounts, IsConcern;
  }

  lemma AttemptCases(a: Json)
    requires AttemptOk(a)
    ensures CasesOk(CasesOf(a)) && multiset(PublicAttemptOf(a).cases) == multiset(PublicCases(CasesOf(a)))
  {
    hide CasesOk, RateOk, PublicCases, SortById, CountDecision;
    SourceCases(a);
    SortKeeps(PublicCases(a.fields[Cases].items));
  }

  lemma IntervenedIff(a: Json, id: string)
    requires AttemptOk(a)
    ensures IntervenesIn(PublicAttemptOf(a), id) <==> IntervenedAt(a, id)
  {
    hide AttemptOk, CaseOk, PublicCaseOf, PublicAttemptOf, CasesOf;
    AttemptCases(a);
    var p, cs := PublicAttemptOf(a).cases, CasesOf(a);
    forall i | 0 <= i < |cs|
      ensures PublicCases(cs)[i].id == id <==> Member(cs[i], CaseId) == Text(id)
      ensures PublicCases(cs)[i].intervened <==> Member(cs[i], ClassificationKey) == Text(INTERVENTION)
    {
      CaseSaysSo(cs[i]);
    }
    if i :| 0 <= i < |p| && p[i].id == id && p[i].intervened {
      var j := PlaceOf(p, PublicCases(cs), i);
    }
    forall i | 0 <= i < |cs| && PublicCases(cs)[i].id == id && PublicCases(cs)[i].intervened
      ensures IntervenesIn(PublicAttemptOf(a), id)
    {
      var j := PlaceOf(PublicCases(cs), p, i);
    }
  }

  // The codes an attempt publishes for an id are those of some concerns it raises about it.
  ghost predicate Publishes(a: Json, id: string, codes: seq<string>)
    requires AttemptOk(a)
  {
    var p := PublicAttemptOf(a).cases;
    exists i :: 0 <= i < |p| && p[i].id == id && p[i].severityCodes == codes
  }

  lemma PublishesIff(a: Json, id: string, codes: seq<string>)
    requires AttemptOk(a)
    ensures Publishes(a, id, codes) <==> exists concerns :: Raises(a, id, concerns) && SeverityCodes(concerns) == codes
  {
    hide AttemptOk, CaseOk, PublicCaseOf, PublicAttemptOf, CasesOf, SeverityCodes, PublicCases;
    AttemptCases(a);
    var p, cs, all := PublicAttemptOf(a).cases, CasesOf(a), PublicCases(CasesOf(a));
    CasesInOrder(cs);
    if i :| 0 <= i < |p| && p[i].id == id && p[i].severityCodes == codes {
      var j := PlaceOf(p, all, i);
      assert Raises(a, id, Member(cs[j], TriageConcerns).items);
    }
    if concerns :| Raises(a, id, concerns) && SeverityCodes(concerns) == codes {
      var i :| 0 <= i < |cs| && Member(cs[i], CaseId) == Text(id) && Member(cs[i], TriageConcerns) == List(concerns);
      var j := PlaceOf(all, p, i);
    }
  }

  lemma CasesInOrder(cs: seq<Json>)
    requires CasesOk(cs)
    ensures |PublicCases(cs)| == |cs|
    ensures forall i :: 0 <= i < |cs| ==> Member(cs[i], CaseId) == Text(PublicCases(cs)[i].id)
    ensures forall i :: 0 <= i < |cs| ==> Member(cs[i], TriageConcerns).List?
    ensures forall i :: 0 <= i < |cs| ==>
      PublicCases(cs)[i].severityCodes == SeverityCodes(Member(cs[i], TriageConcerns).items)
  {
    hide CaseOk, PublicCaseOf, SeverityCodes;
    forall i | 0 <= i < |cs|
      ensures Member(cs[i], CaseId) == Text(PublicCaseOf(cs[i]).id) && Member(cs[i], TriageConcerns).List?
      ensures PublicCaseOf(cs[i]).severityCodes == SeverityCodes(Member(cs[i], TriageConcerns).items)
    {
      CaseSaysSo(cs[i]);
    }
  }

  lemma SameCodes(x: seq<Json>, y: seq<Json>)
    ensures SeverityCodes(x) == SeverityCodes(y)
      <==> (Mentions(x, "X1") <==> Mentions(y, "X1")) && (Mentions(x, "X2") <==> Mentions(y, "X2"))
  {
    hide Mentions;
    CodesIn(x);
    CodesIn(y);
  }

  lemma CodesIn(x: seq<Json>)
    ensures "X1" in SeverityCodes(x) <==> Mentions(x, "X1")
    ensures "X2" in SeverityCodes(x) <==> Mentions(x, "X2")
  {
    hide Mentions;
  }

  // Among checked concerns, different code lists mean that one mentions a code the other lacks.
  lemma DifferentCodes(x: seq<Json>, y: seq<Json>)
    requires forall i :: 0 <= i < |x| ==> IsConcern(x[i])
    requires forall i :: 0 <= i < |y| ==> IsConcern(y[i])
    ensures SeverityCodes(x) != SeverityCodes(y)
      <==> exists code :: Mentions(x, code) != Mentions(y, code)
  {
    hide SeverityCodes;
    SameCodes(x, y);
    if code :| Mentions(x, code) != Mentions(y, code) {
      OnlyTwoCodes(x, code);
      OnlyTwoCodes(y, code);
    }
  }

  lemma OnlyTwoCodes(x: seq<Json>, code: string)
    requires forall i :: 0 <= i < |x| ==> IsConcern(x[i])
    ensures Mentions(x, code) ==> code == "X1" || code == "X2"
  {}

  lemma RaisedConcerns(a: Json, id: string, concerns: seq<Json>)
    requires AttemptOk(a) && Raises(a, id, concerns)
    ensures forall i :: 0 <= i < |concerns| ==> IsConcern(concerns[i])
  {
    hide RateOk, IsConcern;
    SourceCases(a);
    var i :| 0 <= i < |CasesOf(a)| && Member(CasesOf(a)[i], CaseId) == Text(id)
      && Member(CasesOf(a)[i], TriageConcerns) == List(concerns);
    ConcernsOfCase(CasesOf(a)[i]);
  }

  lemma ConcernsOfCase(c: Json)
    requires CaseOk(c)
    ensures Member(c, TriageConcerns).List?
    ensures forall i :: 0 <= i < |Member(c, TriageConcerns).items| ==> IsConcern(Member(c, TriageConcerns).items[i])
  {
    hide ExpectedCaseIds, StageCounts, IsConcern;
  }

  lemma ShowsIff(attempts: seq<Json>, id: string, codes: seq<string>)
    requires AttemptsOk(attempts)
    ensures Shows(PublicAttempts(attempts), id, codes)
      <==> exists i :: 0 <= i < |attempts| && Publishes(attempts[i], id, codes)
  {
    hide AttemptOk, PublicAttemptOf;
    var ps := PublicAttempts(attempts);
    if Shows(ps, id, codes) {
      var i, j :|
        0 <= i < |ps| && 0 <= j < |ps[i].cases| && ps[i].cases[j].id == id && ps[i].cases[j].severityCodes == codes;
      assert Publishes(attempts[i], id, codes);
    }
    if i :| 0 <= i < |attempts| && Publishes(attempts[i], id, codes) {
      assert ps[i] == PublicAttemptOf(attempts[i]);
    }
  }

  lemma VariesAcross(attempts: seq<Json>, id: string)
    requires AttemptsOk(attempts)
    ensures (exists x, y :: Shows(PublicAttempts(attempts), id, x) && Shows(PublicAttempts(attempts), id, y) && x != y)
      <==> Varies(attempts, id)
  {
    hide AttemptOk, PublicAttemptOf, PublicAttempts, Shows, Publishes, Raises, SeverityCodes, Mentions;
    if x, y :| Shows(PublicAttempts(attempts), id, x) && Shows(PublicAttempts(attempts), id, y) && x != y {
      ShowsIff(attempts, id, x);
      ShowsIff(attempts, id, y);
      var i :| 0 <= i < |attempts| && Publishes(attempts[i], id, x);
      var k :| 0 <= k < |attempts| && Publishes(attempts[k], id, y);
      PublishesIff(attempts[i], id, x);
      PublishesIff(attempts[k], id, y);
      var u :| Raises(attempts[i], id, u) && SeverityCodes(u) == x;
      var v :| Raises(attempts[k], id, v) && SeverityCodes(v) == y;
      OneVaries(attempts, id, i, k, u, v);
    }
    if Varies(attempts, id) {
      var i, k, u, v, code :|
        && 0 <= i < |attempts| && 0 <= k < |attempts|
        && Raises(attempts[i], id, u) && Raises(attempts[k], id, v) && Mentions(u, code) && !Mentions(v, code);
      RaisedConcerns(attempts[i], id, u);
      RaisedConcerns(attempts[k], id, v);
      DifferentCodes(u, v);
      PublishesIff(attempts[i], id, SeverityCodes(u));
      PublishesIff(attempts[k], id, SeverityCodes(v));
      ShowsIff(attempts, id, SeverityCodes(u));
      ShowsIff(attempts, id, SeverityCodes(v));
    }
  }

  lemma OneVaries(attempts: seq<Json>, id: string, i: nat, k: nat, u: seq<Json>, v: seq<Json>)
    requires AttemptsOk(attempts) && i < |attempts| && k < |attempts|
    requires Raises(attempts[i], id, u) && Raises(attempts[k], id, v) && SeverityCodes(u) != SeverityCodes(v)
    ensures Varies(attempts, id)
  {
    hide AttemptOk, Raises, SeverityCodes, Mentions;
    RaisedConcerns(attempts[i], id, u);
    RaisedConcerns(attempts[k], id, v);
    DifferentCodes(u, v);
    var code :| Mentions(u, code) != Mentions(v, code);
    if Mentions(u, code) {
      assert Varies(attempts, id);
    } else {
      assert Mentions(v, code) && !Mentions(u, code);
      assert Varies(attempts, id);
    }
  }

  // ----- the lists of the repeat structure -----

  // A group lists exactly these ids, each once and in order, and says how many there are.
  ghost predicate Lists(g: Json, ids: set<string>) {
    && g.Object? && g.fields.Keys == {Count, CaseIds} && g.fields[CaseIds].List?
    && var items := g.fields[CaseIds].items;
    && g.fields[Count] == Integer(|items|)
    && (forall j :: j in items <==> j.Text? && j.text in ids)
    && (forall i, k :: 0 <= i < k < |items| ==>
          items[i].Text? && items[k].Text? && items[i] != items[k] && Before(items[i].text, items[k].text))
  }

  lemma DigitsAscend(i: nat, k: nat)
    requires i < k < 10
    ensures Digit(i) < Digit(k)
  {}

  lemma IdsAreAscendingNumbers(i: nat, k: nat)
    requires i < k < 100
    ensures FrozenId(i) != FrozenId(k) && Before(FrozenId(i), FrozenId(k))
  {
    hide Digit;
    var a, b, c, d := Digit(i / 10), Digit(i % 10), Digit(k / 10), Digit(k % 10);
    if i / 10 < k / 10 { DigitsAscend(i / 10, k / 10); } else { DigitsAscend(i % 10, k % 10); }
    var x, y := FrozenId(i), FrozenId(k);
    assert x[1..] == ['t', '_', a, b] && y[1..] == ['t', '_', c, d];
    assert x[1..][1..] == ['_', a, b] && y[1..][1..] == ['_', c, d];
    assert x[1..][1..][1..] == [a, b] && y[1..][1..][1..] == [c, d];
    assert [a, b][1..] == [b] && [c, d][1..] == [d];
    assert Before([b], [d]) || a < c;
    assert Before([a, b], [c, d]);
    assert Before(['_', a, b], ['_', c, d]);
    assert Before(['t', '_', a, b], ['t', '_', c, d]);
    assert x[3] == a && x[4] == b && y[3] == c && y[4] == d;
  }

  lemma {:induction false} InOrderLists(ids: set<string>, n: nat)
    requires n < 100
    ensures var r := InOrder(ids, n);
      && (forall id :: id in r <==> id in ids && id in FrozenIds(n))
      && (forall i, k :: 0 <= i < k < |r| ==> r[i] != r[k] && Before(r[i], r[k]))
      && |r| <= n
  {
    hide FrozenId, Before;
    if n > 0 {
      InOrderLists(ids, n - 1);
      var r := InOrder(ids, n - 1);
      forall i | 0 <= i < |r| ensures r[i] != FrozenId(n) && Before(r[i], FrozenId(n)) {
        var k := FrozenIdAt(r[i], n - 1);
        IdsAreAscendingNumbers(k, n);
      }
    }
  }

  lemma {:induction false} DistinctCount(r: seq<string>, ids: set<string>)
    requires forall i, k :: 0 <= i < k < |r| ==> r[i] != r[k]
    requires forall id :: id in r <==> id in ids
    ensures |r| == |ids|
  {
    if r == [] {
      assert ids == {};
    } else {
      var n := |r| - 1;
      assert r == r[..n] + [r[n]];
      assert r[n] !in r[..n];
      DistinctCount(r[..n], ids - {r[n]});
    }
  }

  lemma GroupIsListed(ids: set<string>)
    requires ids <= ExpectedCaseIds()
    ensures Lists(GroupJson(ids), ids)
  {
    hide FrozenId, FrozenIds, InOrder, Before, Texts;
    var r := InOrder(ids, EXPECTED_CASE_COUNT);
    InOrderLists(ids, EXPECTED_CASE_COUNT);
    DistinctCount(r, ids);
    TextsIsList(r);
    forall j ensures j in Texts(r).items <==> j.Text? && j.text in ids {
      if j.Text? {
        TextsHold(r, j.text);
      }
    }
  }

  // The repeat structure of a document: how many attempts there are, and the four lists.
  ghost predicate RepeatsOf(out: Json, attempts: seq<Json>) {
    && out.Object? && out.fields.Keys == {AttemptCount, Always, Sometimes, Never, SeverityVaried, PartitionTotal}
    && out.fields[AttemptCount] == Integer(|attempts|) && out.fields[PartitionTotal] == Integer(30)
    && Lists(out.fields[Always], set id | id in ExpectedCaseIds() && EveryAttempt(attempts, id))
    && Lists(out.fields[Never], set id | id in ExpectedCaseIds() && NoAttempt(attempts, id))
    && Lists(out.fields[Sometimes],
         set id | id in ExpectedCaseIds() && !EveryAttempt(attempts, id) && !NoAttempt(attempts, id))
    && Lists(out.fields[SeverityVaried],
         set id | id in ExpectedCaseIds() && EveryAttempt(attempts, id) && Varies(attempts, id))
  }

  ghost predicate EveryAttempt(attempts: seq<Json>, id: string) {
    forall i :: 0 <= i < |attempts| ==> IntervenedAt(attempts[i], id)
  }

  ghost predicate NoAttempt(attempts: seq<Json>, id: string) {
    forall i :: 0 <= i < |attempts| ==> !IntervenedAt(attempts[i], id)
  }

  lemma InterveningAttempts(attempts: seq<Json>, id: string)
    requires AttemptsOk(attempts)
    ensures forall i :: 0 <= i < |attempts| ==>
      (IntervenesIn(PublicAttempts(attempts)[i], id) <==> IntervenedAt(attempts[i], id))
  {
    hide AttemptOk, PublicAttemptOf, IntervenesIn, IntervenedAt;
    forall i | 0 <= i < |attempts|
      ensures IntervenesIn(PublicAttemptOf(attempts[i]), id) <==> IntervenedAt(attempts[i], id)
    {
      IntervenedIff(attempts[i], id);
    }
  }

  // Each group of the summary, over the attempts of the document.
  lemma GroupsOfSource(attempts: seq<Json>, id: string)
    requires AttemptsOk(attempts) && SharedCorpus(PublicAttempts(attempts))
    requires forall i :: 0 <= i < |PublicAttempts(attempts)| ==> DistinctIds(PublicAttempts(attempts)[i].cases)
    requires CaseIdSet(PublicAttempts(attempts)[0]) == ExpectedCaseIds()
    ensures var g := Group(Tabulate(PublicAttempts(attempts)), |attempts|);
      && (id in g.always <==> EveryAttempt(attempts, id))
      && (id in g.never <==> id in ExpectedCaseIds() && NoAttempt(attempts, id))
      && (id in g.sometimes <==> !EveryAttempt(attempts, id) && !NoAttempt(attempts, id))
      && (id in g.varied <==> EveryAttempt(attempts, id) && Varies(attempts, id))
  {
    hide AttemptOk, PublicAttemptOf, IntervenesIn, IntervenedAt, Group, Tabulate, DistinctIds, CaseIdSet, Shows, Varies,
      ExpectedCaseIds;
    GroupsMean(PublicAttempts(attempts), id);
    InterveningAttempts(attempts, id);
    VariesAcross(attempts, id);
    assert |PublicAttempts(attempts)| == |attempts|;
  }

  lemma RepeatsAreListed(attempts: seq<Json>)
    requires AttemptsOk(attempts) && SharedCorpus(PublicAttempts(attempts))
    requires forall i :: 0 <= i < |PublicAttempts(attempts)| ==> DistinctIds(PublicAttempts(attempts)[i].cases)
    requires CaseIdSet(PublicAttempts(attempts)[0]) == ExpectedCaseIds()
    ensures RepeatsOf(RepeatsJson(Group(Tabulate(PublicAttempts(attempts)), |attempts|)), attempts)
  {
    hide AttemptsOk, PublicAttempts, Group, Tabulate, DistinctIds, CaseIdSet, EveryAttempt, NoAttempt, Varies,
      ExpectedCaseIds, SharedCorpus, Lists, GroupJson;
    var g, all := Group(Tabulate(PublicAttempts(attempts)), |attempts|), ExpectedCaseIds();
    GroupCovers(attempts);
    forall id
      ensures id in g.always <==> id in all && EveryAttempt(attempts, id)
      ensures id in g.never <==> id in all && NoAttempt(attempts, id)
      ensures id in g.sometimes <==> id in all && !EveryAttempt(attempts, id) && !NoAttempt(attempts, id)
      ensures id in g.varied <==> id in all && EveryAttempt(attempts, id) && Varies(attempts, id)
    {
      GroupsOfSource(attempts, id);
    }
    assert g.always == set id | id in all && EveryAttempt(attempts, id);
    assert g.never == set id | id in all && NoAttempt(attempts, id);
    assert g.sometimes == set id | id in all && !EveryAttempt(attempts, id) && !NoAttempt(attempts, id);
    assert g.varied == set id | id in all && EveryAttempt(attempts, id) && Varies(attempts, id);
    GroupIsListed(g.always);
    GroupIsListed(g.never);
    GroupIsListed(g.sometimes);
    GroupIsListed(g.varied);
  }

  lemma GroupCovers(attempts: seq<Json>)
    requires AttemptsOk(attempts) && SharedCorpus(PublicAttempts(attempts))
    requires forall i :: 0 <= i < |PublicAttempts(attempts)| ==> DistinctIds(PublicAttempts(attempts)[i].cases)
    requires CaseIdSet(PublicAttempts(attempts)[0]) == ExpectedCaseIds()
    ensures var g := Group(Tabulate(PublicAttempts(attempts)), |attempts|);
      && g.attempts == |attempts| && |g.always| + |g.sometimes| + |g.never| == 30
      && g.always + g.sometimes + g.never == ExpectedCaseIds() && g.varied <= g.always
  {
    hide AttemptOk, PublicAttemptOf, DistinctIds, CaseIdSet, Tabulate, ExpectedCaseIds;
    assert |PublicAttempts(attempts)| == |attempts|;
    GroupsPartition(PublicAttempts(attempts));
  }

  // ----- the document -----

  // A published document copies six blocks of its source, names the run, the commit and the two
  // digests, holds a copy of every attempt in order, and tabulates them.
  ghost predicate PublishedFrom(out: Json, doc: Json, digests: Digests) {
    && out.Object?
    && out.fields.Keys == {Schema, Derivation, PreflightBlock, ProviderBlock, SessionBlock, CostBlock, Attempts,
                           RepeatStructureBlock, DistributionBlock, Limits}
    && out.fields[Schema] == Text("redteam_live_public_summary")
    && (forall k :: k in {PreflightBlock, ProviderBlock, SessionBlock, CostBlock, DistributionBlock, Limits}
          ==> out.fields[k] == Member(doc, k))
    && Names(out.fields[Derivation], Member(doc, RunBlock), digests)
    && out.fields[Attempts].List? && Member(doc, Attempts).List?
    && AttemptsCopied(out.fields[Attempts].items, Member(doc, Attempts).items)
    && RepeatsOf(out.fields[RepeatStructureBlock], Member(doc, Attempts).items)
  }

  ghost predicate Names(derivation: Json, run: Json, digests: Digests) {
    && derivation.Object?
    && derivation.fields.Keys == {SourceRunId, SourceCommitSha, SourceWorktreeDirty, SourceArtifactDigests}
    && derivation.fields[SourceRunId] == Member(run, RunId)
    && derivation.fields[SourceCommitSha] == Member(Member(run, Git), CommitSha)
    && derivation.fields[SourceWorktreeDirty] == Member(Member(run, Git), Dirty)
    && Member(derivation.fields[SourceArtifactDigests], OtherKey("redteam_live_session.json"))
       == Text("sha256:" + digests.json)
    && Member(derivation.fields[SourceArtifactDigests], OtherKey("redteam_live_session.md"))
       == Text("sha256:" + digests.md)
  }

  ghost predicate AttemptsCopied(ps: seq<Json>, attempts: seq<Json>) {
    |ps| == |attempts| && forall i :: 0 <= i < |attempts| ==> AttemptCopyOf(ps[i], attempts[i])
  }

  lemma AttemptsAreCopied(attempts: seq<Json>)
    requires AttemptsOk(attempts)
    ensures PublicAttemptsJson(PublicAttempts(attempts)).List?
    ensures AttemptsCopied(PublicAttemptsJson(PublicAttempts(attempts)).items, attempts)
  {
    hide AttemptOk, PublicAttemptOf, PublicAttemptJson, AttemptCopyOf;
    var ps := PublicAttemptsJson(PublicAttempts(attempts)).items;
    assert |ps| == |attempts|;
    forall i | 0 <= i < |attempts| ensures AttemptCopyOf(ps[i], attempts[i]) {
      AttemptIsCopied(attempts[i]);
    }
  }

  lemma SourceIsNamed(doc: Json, expected: Option<string>, pinned: Pinning)
    requires Publishable(doc, expected, pinned)
    ensures Names(DerivationJson(SummaryOf(doc, expected, pinned)), Member(doc, RunBlock), pinned.digests)
  {
    hide SessionOk, PreflightOk, CostOk, DistributionOk, LimitsOk, Partitions, Group, Tabulate, PublicAttempts;
  }

  lemma DocumentCorpus(doc: Json, expected: Option<string>, pinned: Pinning)
    requires Publishable(doc, expected, pinned)
    ensures Member(doc, Attempts).List? && AttemptsOk(Member(doc, Attempts).items)
    ensures var ps := PublicAttempts(Member(doc, Attempts).items);
      && ps == SummaryOf(doc, expected, pinned).attempts && SharedCorpus(ps)
      && (forall i :: 0 <= i < |ps| ==> DistinctIds(ps[i].cases)) && CaseIdSet(ps[0]) == ExpectedCaseIds()
      && SummaryOf(doc, expected, pinned).repeats == Group(Tabulate(ps), |Member(doc, Attempts).items|)
  {
    hide RunOk, PreflightOk, CostOk, DistributionOk, LimitsOk, Partitions, Group, Tabulate, Sane, ExpectedCaseIds,
      AttemptOk, PublicAttemptOf, CaseIdSet, DistinctIds, Frozen;
    PublishedAttempts(doc, expected, pinned);
    var ps := SummaryOf(doc, expected, pinned).attempts;
    SaneAttempts(ps);
    CorpusIsFrozen(ps);
  }

  lemma RenderedParts(s: Summary, doc: Json, digests: Digests)
    requires s.preflight == Member(doc, PreflightBlock) && s.provider == Member(doc, ProviderBlock)
    requires s.session == Member(doc, SessionBlock) && s.cost == Member(doc, CostBlock)
    requires s.distribution == Member(doc, DistributionBlock) && s.limits == Member(doc, Limits)
    requires Names(DerivationJson(s), Member(doc, RunBlock), digests) && Member(doc, Attempts).List?
    requires PublicAttemptsJson(s.attempts).List?
    requires AttemptsCopied(PublicAttemptsJson(s.attempts).items, Member(doc, Attempts).items)
    requires RepeatsOf(RepeatsJson(s.repeats), Member(doc, Attempts).items)
    ensures PublishedFrom(Rendering(s), doc, digests)
  {
    hide Names, AttemptsCopied, RepeatsOf, RepeatsJson, PublicAttemptsJson, DerivationJson, Rendering, Member;
    RenderedKeys(s);
    RenderedFields(s);
  }

  lemma RenderedKeys(s: Summary)
    ensures Rendering(s).Object?
    ensures Rendering(s).fields.Keys == {Schema, Derivation, PreflightBlock, ProviderBlock, SessionBlock, CostBlock,
                                         Attempts, RepeatStructureBlock, DistributionBlock, Limits}
  {
    hide RepeatsJson, PublicAttemptsJson, DerivationJson;
  }

  lemma RenderedFields(s: Summary)
    requires Rendering(s).Object?
    requires {Schema, Derivation, PreflightBlock, ProviderBlock, SessionBlock, CostBlock, Attempts,
              RepeatStructureBlock, DistributionBlock, Limits} <= Rendering(s).fields.Keys
    ensures var f := Rendering(s).fields;
      && f[Schema] == Text("redteam_live_public_summary")
      && f[PreflightBlock] == s.preflight && f[ProviderBlock] == s.provider && f[SessionBlock] == s.session
      && f[CostBlock] == s.cost && f[DistributionBlock] == s.distribution && f[Limits] == s.limits
      && f[Derivation] == DerivationJson(s) && f[Attempts] == PublicAttemptsJson(s.attempts)
      && f[RepeatStructureBlock] == RepeatsJson(s.repeats)
  {
    hide RepeatsJson, PublicAttemptsJson, DerivationJson;
  }

  lemma AcceptedSummary(doc: Json, expected: Option<string>, pinned: Pinning)
    requires Publishable(doc, expected, pinned)
    ensures PublishedFrom(Rendering(SummaryOf(doc, expected, pinned)), doc, pinned.digests)
  {
    hide *;
    DocumentCorpus(doc, expected, pinned);
    SourceIsNamed(doc, expected, pinned);
    BlocksOf(doc, expected, pinned);
    AttemptsAreCopied(Member(doc, Attempts).items);
    RepeatsAreListed(Member(doc, Attempts).items);
    RenderedParts(SummaryOf(doc, expected, pinned), doc, pinned.digests);
  }

  // Whatever document is accepted: the summary published for it says this about it.
  lemma SummarySaysWhatHappened(doc: Json, expected: Option<string>, pinned: Pinning)
    ensures var r := BuildPublicSummary(doc, expected, pinned);
      r.Some? ==> PublishedFrom(Rendering(r.value), doc, pinned.digests)
  {
    hide Publishable, SummaryOf, Walk, Rendering, PublishedFrom;
    if Publishable(doc, expected, pinned) {
      AcceptedSummary(doc, expected, pinned);
    }
  }

  lemma BlocksOf(doc: Json, expected: Option<string>, pinned: Pinning)
    requires Publishable(doc, expected, pinned)
    ensures var s := SummaryOf(doc, expected, pinned);
      && s.preflight == Member(doc, PreflightBlock) && s.provider == Member(doc, ProviderBlock)
      && s.session == Member(doc, SessionBlock) && s.cost == Member(doc, CostBlock)
      && s.distribution == Member(doc, DistributionBlock) && s.limits == Member(doc, Limits)
  {
    hide Publishable, Group, Tabulate, PublicAttempts, AttemptsOk;
  }
}
