/** The report over screening runs: correctness by taxonomy code, the paired marginal of a learned
    rule, and the attribution of escalations to system failures. */
module ScientificReport {
  import opened Contracts
  import opened Guardrail
  import opened Graph
  import opened Metrics
  import opened FailClosed
  import Rules
  import RulePromotion

  datatype RunRecord = RunRecord(
    id: string, expected: Decision, agentDecision: Decision, decisionOk: bool, findingOk: bool, injected: string,
    severities: seq<(Severity, Origin)>, systemFailures: nat, systemKinds: seq<ErrorKind>)

  function SeveritiesByOrigin(fs: seq<Finding>): seq<(Severity, Origin)> {
    seq(|fs|, i requires 0 <= i < |fs| => (fs[i].severity, fs[i].origin))
  }

  function CountSystem(fs: seq<Finding>): nat {
    if fs == [] then 0 else CountSystem(fs[..|fs| - 1]) + if fs[|fs| - 1].origin == System then 1 else 0
  }

  function KindOf(f: Finding): seq<ErrorKind> {
    if f.origin == System && f.errorKind.Some? then [f.errorKind.value] else []
  }

  function KindsOf(fs: seq<Finding>): seq<ErrorKind> {
    if fs == [] then [] else KindsOf(fs[..|fs| - 1]) + KindOf(fs[|fs| - 1])
  }

  // _record_from_result; the injected codes are given by their joined key
  function RecordFrom(id: string, t: Truth, injected: string, r: AgentResult): RunRecord {
    RunRecord(id, t.decision, r.decision, DecisionMatch(r, t), FindingMatch(r, t), injected,
      SeveritiesByOrigin(r.findings), CountSystem(r.findings), KindsOf(r.findings))
  }

  ghost function SystemPlaces(fs: seq<Finding>): set<int> {
    set i | 0 <= i < |fs| && fs[i].origin == System
  }

  ghost predicate Shows(f: Finding, k: ErrorKind) {
    f.origin == System && f.errorKind == Some(k)
  }

  ghost function KindPlaces(fs: seq<Finding>, k: ErrorKind): set<int> {
    set i | 0 <= i < |fs| && Shows(fs[i], k)
  }

  lemma {:induction false} SystemPlacesCounted(fs: seq<Finding>)
    ensures CountSystem(fs) == |SystemPlaces(fs)|
  {
    if fs != [] {
      var n := |fs| - 1;
      SystemPlacesCounted(fs[..n]);
      assert SystemPlaces(fs) == SystemPlaces(fs[..n]) + if fs[n].origin == System then {n} else {};
    }
  }

  lemma KindPlacesGrow(fs: seq<Finding>, k: ErrorKind)
    requires fs != []
    ensures var n := |fs| - 1;
      |KindPlaces(fs, k)| == |KindPlaces(fs[..n], k)| + if Shows(fs[n], k) then 1 else 0
  {
    hide Shows;
    var n := |fs| - 1;
    var less, here := KindPlaces(fs[..n], k), if Shows(fs[n], k) then {n} else {};
    assert KindPlaces(fs, k) == less + here && less !! here;
  }

  lemma {:induction false} KindPlacesCounted(fs: seq<Finding>, k: ErrorKind)
    ensures multiset(KindsOf(fs))[k] == |KindPlaces(fs, k)|
  {
    hide KindPlaces;
    if fs == [] {
      NoKinds(k);
    } else {
      KindPlacesCounted(fs[..|fs| - 1], k);
      KindPlacesGrow(fs, k);
    }
  }

  lemma NoKinds(k: ErrorKind)
    ensures KindPlaces([], k) == {}
  {}

  // What a record says of a run: the decision against the declared one, the reported codes against the
  // declared ones, how many system findings there were, and how often each kind of error.
  lemma RecordSays(id: string, t: Truth, injected: string, r: AgentResult, k: ErrorKind)
    ensures var rec := RecordFrom(id, t, injected, r);
      && rec.id == id && rec.injected == injected && rec.expected == t.decision && rec.agentDecision == r.decision
      && (rec.decisionOk <==> r.decision == t.decision) && (rec.findingOk <==> AgentFindingCodes(r.findings) == t.codes)
      && rec.systemFailures == |SystemPlaces(r.findings)|
      && multiset(rec.systemKinds)[k] == |KindPlaces(r.findings, k)|
  {
    hide AgentFindingCodes, CountSystem, KindsOf, SystemPlaces, KindPlaces, SeveritiesByOrigin;
    SystemPlacesCounted(r.findings);
    KindPlacesCounted(r.findings, k);
  }

  // ----- attribution -----

  function KeptSeverities(ss: seq<(Severity, Origin)>): seq<Severity> {
    if ss == [] then []
    else KeptSeverities(ss[..|ss| - 1]) + if ss[|ss| - 1].1 != System then [ss[|ss| - 1].0] else []
  }

  // _counterfactual_without_system
  function CounterfactualWithoutSystem(r: RunRecord): Decision {
    var kept := KeptSeverities(r.severities);
    DecisionForPresent(Unexplainable in kept, Explainable in kept)
  }

  // Without its system findings the run would have ended strictly lower.
  predicate Lowered(r: RunRecord) {
    Rank(CounterfactualWithoutSystem(r)) < Rank(r.agentDecision)
  }

  predicate Induced(r: RunRecord) {
    r.systemFailures > 0 && Lowered(r)
  }

  lemma {:induction false} KeptAre(ss: seq<(Severity, Origin)>, s: Severity)
    ensures s in KeptSeverities(ss) <==> exists i :: 0 <= i < |ss| && ss[i].1 != System && ss[i].0 == s
  {
    if ss != [] {
      var init := ss[..|ss| - 1];
      KeptAre(init, s);
      if i :| 0 <= i < |ss| && ss[i].1 != System && ss[i].0 == s {
        assert i < |init| ==> init[i] == ss[i];
      }
      if i :| 0 <= i < |init| && init[i].1 != System && init[i].0 == s {
        assert ss[i] == init[i];
      }
      assert ss[|ss| - 1].1 != System && ss[|ss| - 1].0 == s
        ==> exists i :: 0 <= i < |ss| && ss[i].1 != System && ss[i].0 == s;
    }
  }

  // Some finding that is not a system finding forces escalation by itself.
  predicate EscalatesAnyway(fs: seq<Finding>) {
    exists i :: 0 <= i < |fs| && fs[i].origin != System && fs[i].severity == Unexplainable
  }

  lemma KeptUnexplainable(fs: seq<Finding>)
    ensures Unexplainable in KeptSeverities(SeveritiesByOrigin(fs)) <==> EscalatesAnyway(fs)
  {
    var ss := SeveritiesByOrigin(fs);
    KeptAre(ss, Unexplainable);
    if i :| 0 <= i < |fs| && fs[i].origin != System && fs[i].severity == Unexplainable {
      assert ss[i].1 != System && ss[i].0 == Unexplainable;
    }
  }

  lemma {:induction false} SystemCounted(fs: seq<Finding>)
    ensures CountSystem(fs) > 0 <==> HasSystem(fs)
  {
    if fs != [] {
      var init := fs[..|fs| - 1];
      SystemCounted(init);
      if i :| 0 <= i < |fs| && fs[i].origin == System {
        assert i < |init| ==> init[i].origin == System;
      }
      if i :| 0 <= i < |init| && init[i].origin == System {
        assert fs[i].origin == System;
      }
    }
  }

  // Some finding that is not a system finding asks for more information.
  ghost predicate AsksAnyway(fs: seq<Finding>) {
    exists i :: 0 <= i < |fs| && fs[i].origin != System && fs[i].severity == Explainable
  }

  lemma KeptExplainable(fs: seq<Finding>)
    ensures Explainable in KeptSeverities(SeveritiesByOrigin(fs)) <==> AsksAnyway(fs)
  {
    var ss := SeveritiesByOrigin(fs);
    KeptAre(ss, Explainable);
    if i :| 0 <= i < |fs| && fs[i].origin != System && fs[i].severity == Explainable {
      assert ss[i].1 != System && ss[i].0 == Explainable;
    }
  }

  // The counterfactual decision of a run, from its findings that are not system findings.
  lemma CounterfactualMeans(id: string, t: Truth, injected: string, r: AgentResult)
    ensures CounterfactualWithoutSystem(RecordFrom(id, t, injected, r))
      == if EscalatesAnyway(r.findings) then Escalate else if AsksAnyway(r.findings) then RequestMoreInfo else Approve
  {
    hide KeptSeverities, SeveritiesByOrigin, EscalatesAnyway, AsksAnyway, FindingMatch;
    KeptUnexplainable(r.findings);
    KeptExplainable(r.findings);
  }

  // A run with a system failure is counted as induced exactly when no other finding would have
  // escalated it; a run without one never is.
  lemma InducedIff(d: Dossier, c: Config, triage: Outcome<TriageResult>, synthesis: Outcome<Proposal>, id: string,
        t: Truth, injected: string)
    requires Vetted(c.registry)
    ensures var r := Screen(d, c, triage, synthesis);
      Induced(RecordFrom(id, t, injected, r)) <==> HasSystem(r.findings) && !EscalatesAnyway(r.findings)
  {
    hide Screen, KeptSeverities, CountSystem, KindsOf, SeveritiesByOrigin, Vetted, FindingMatch, HasSystem,
      EscalatesAnyway;
    var r := Screen(d, c, triage, synthesis);
    SystemForcesEscalate(d, c, triage, synthesis);
    SystemCounted(r.findings);
    KeptUnexplainable(r.findings);
  }

  function FailedRuns(records: seq<RunRecord>): seq<RunRecord> {
    if records == [] then []
    else
      FailedRuns(records[..|records| - 1])
      + if records[|records| - 1].systemFailures > 0 then [records[|records| - 1]] else []
  }

  function LoweredRuns(records: seq<RunRecord>): seq<RunRecord> {
    if records == [] then []
    else
      LoweredRuns(records[..|records| - 1])
      + if Lowered(records[|records| - 1]) then [records[|records| - 1]] else []
  }

  function Bump(counts: map<ErrorKind, nat>, k: ErrorKind): map<ErrorKind, nat> {
    counts[k := (if k in counts then counts[k] else 0) + 1]
  }

  function CountKinds(counts: map<ErrorKind, nat>, kinds: seq<ErrorKind>): map<ErrorKind, nat> {
    if kinds == [] then counts else Bump(CountKinds(counts, kinds[..|kinds| - 1]), kinds[|kinds| - 1])
  }

  function AllKinds(records: seq<RunRecord>): map<ErrorKind, nat> {
    if records == [] then map[] else CountKinds(AllKinds(records[..|records| - 1]), records[|records| - 1].systemKinds)
  }

  datatype Reliability = Reliability(runs: nat, withFailure: nat, induced: nat, kinds: map<ErrorKind, nat>)

  // build_operational_reliability
  method BuildOperationalReliability(records: seq<RunRecord>) returns (r: Reliability)
    ensures r == Reliability(|records|, |FailedRuns(records)|, |LoweredRuns(FailedRuns(records))|, AllKinds(records))
  {
    hide Lowered;
    var failed := FailedRuns(records);
    var induced: seq<RunRecord> := [];
    for i := 0 to |failed|
      invariant induced == LoweredRuns(failed[..i])
    {
      assert failed[..i + 1][..i] == failed[..i];
      if Lowered(failed[i]) {
        induced := induced + [failed[i]];
      }
    }
    assert failed[..|failed|] == failed;
    var kinds: map<ErrorKind, nat> := map[];
    for i := 0 to |records|
      invariant kinds == AllKinds(records[..i])
    {
      var ks := records[i].systemKinds;
      assert records[..i + 1][..i] == records[..i];
      ghost var before := kinds;
      for j := 0 to |ks|
        invariant kinds == CountKinds(before, ks[..j])
      {
        assert ks[..j + 1][..j] == ks[..j];
        kinds := Bump(kinds, ks[j]);
      }
      assert ks[..|ks|] == ks;
    }
    assert records[..|records|] == records;
    return Reliability(|records|, |failed|, |induced|, kinds);
  }

  lemma {:induction false} FailedAre(records: seq<RunRecord>, r: RunRecord)
    ensures r in FailedRuns(records) <==> r in records && r.systemFailures > 0
    ensures |FailedRuns(records)| <= |records|
  {
    if records != [] {
      FailedAre(records[..|records| - 1], r);
      assert records == records[..|records| - 1] + [records[|records| - 1]];
    }
  }

  lemma {:induction false} LoweredAre(records: seq<RunRecord>, r: RunRecord)
    ensures r in LoweredRuns(records) <==> r in records && Lowered(r)
    ensures |LoweredRuns(records)| <= |records|
  {
    hide Lowered;
    if records != [] {
      LoweredAre(records[..|records| - 1], r);
      assert records == records[..|records| - 1] + [records[|records| - 1]];
    }
  }

  // The runs counted as induced are exactly the induced ones among the records.
  lemma InducedAreCounted(records: seq<RunRecord>, r: RunRecord)
    ensures r in LoweredRuns(FailedRuns(records)) <==> r in records && Induced(r)
    ensures |LoweredRuns(FailedRuns(records))| <= |FailedRuns(records)| <= |records|
  {
    hide Lowered;
    FailedAre(records, r);
    LoweredAre(FailedRuns(records), r);
  }

  ghost function FailedPlaces(records: seq<RunRecord>): set<int> {
    set i | 0 <= i < |records| && records[i].systemFailures > 0
  }

  ghost function InducedPlaces(records: seq<RunRecord>): set<int> {
    set i | 0 <= i < |records| && Induced(records[i])
  }

  lemma FailedPlacesGrow(records: seq<RunRecord>)
    requires records != []
    ensures var n := |records| - 1;
      |FailedPlaces(records)| == |FailedPlaces(records[..n])| + if records[n].systemFailures > 0 then 1 else 0
  {
    var n := |records| - 1;
    var less, here := FailedPlaces(records[..n]), if records[n].systemFailures > 0 then {n} else {};
    assert FailedPlaces(records) == less + here && less !! here;
  }

  lemma InducedPlacesGrow(records: seq<RunRecord>)
    requires records != []
    ensures var n := |records| - 1;
      |InducedPlaces(records)| == |InducedPlaces(records[..n])| + if Induced(records[n]) then 1 else 0
  {
    hide Induced;
    var n := |records| - 1;
    var less, here := InducedPlaces(records[..n]), if Induced(records[n]) then {n} else {};
    assert InducedPlaces(records) == less + here && less !! here;
  }

  // The failed runs are those with a system failure, and of these the induced ones are counted.
  lemma {:induction false} FailuresAreCounted(records: seq<RunRecord>)
    ensures |FailedRuns(records)| == |FailedPlaces(records)|
    ensures |LoweredRuns(FailedRuns(records))| == |InducedPlaces(records)|
  {
    hide Lowered, FailedPlaces, InducedPlaces, LoweredRuns;
    if records == [] {
      NoPlaces();
    } else {
      var n := |records| - 1;
      FailuresAreCounted(records[..n]);
      FailedPlacesGrow(records);
      InducedPlacesGrow(records);
      LoweredOfOneMore(FailedRuns(records[..n]), records[n]);
    }
  }

  lemma NoPlaces()
    ensures FailedPlaces([]) == {} && InducedPlaces([]) == {} && LoweredRuns([]) == []
  {}

  lemma LoweredOfOneMore(records: seq<RunRecord>, r: RunRecord)
    ensures LoweredRuns(records + [r]) == LoweredRuns(records) + if Lowered(r) then [r] else []
    ensures LoweredRuns(records + []) == LoweredRuns(records)
  {
    hide Lowered;
    assert (records + [r])[..|records|] == records;
    assert records + [] == records;
  }

  function CountOf(counts: map<ErrorKind, nat>, k: ErrorKind): nat {
    if k in counts then counts[k] else 0
  }

  // How often a kind of error occurs in the records.
  ghost function Occurrences(records: seq<RunRecord>, k: ErrorKind): nat {
    if records == [] then 0
    else Occurrences(records[1..], k) + multiset(records[0].systemKinds)[k]
  }

  lemma {:induction false} OccurrencesJoin(records: seq<RunRecord>, r: RunRecord, k: ErrorKind)
    ensures Occurrences(records + [r], k) == Occurrences(records, k) + multiset(r.systemKinds)[k]
  {
    if records != [] {
      assert (records + [r])[1..] == records[1..] + [r];
      OccurrencesJoin(records[1..], r, k);
    } else {
      assert ([] + [r])[1..] == [];
    }
  }

  lemma {:induction false} KindsCounted(counts: map<ErrorKind, nat>, kinds: seq<ErrorKind>, k: ErrorKind)
    ensures CountOf(CountKinds(counts, kinds), k) == CountOf(counts, k) + multiset(kinds)[k]
  {
    if kinds != [] {
      var n := |kinds| - 1;
      KindsCounted(counts, kinds[..n], k);
      assert kinds == kinds[..n] + [kinds[n]];
    }
  }

  // The table of kinds counts every occurrence of every kind.
  lemma {:induction false} AllKindsAreCounted(records: seq<RunRecord>, k: ErrorKind)
    ensures CountOf(AllKinds(records), k) == Occurrences(records, k)
  {
    if records != [] {
      var n := |records| - 1;
      AllKindsAreCounted(records[..n], k);
      KindsCounted(AllKinds(records[..n]), records[n].systemKinds, k);
      OccurrencesJoin(records[..n], records[n], k);
      assert records == records[..n] + [records[n]];
    }
  }

  // ----- correctness by taxonomy code -----

  datatype Bucket = Bucket(correct: nat, total: nat)

  function Put(buckets: map<string, Bucket>, r: RunRecord): map<string, Bucket> {
    var b := if r.injected in buckets then buckets[r.injected] else Bucket(0, 0);
    buckets[r.injected := Bucket(b.correct + if r.decisionOk then 1 else 0, b.total + 1)]
  }

  function Buckets(records: seq<RunRecord>): map<string, Bucket> {
    if records == [] then map[] else Put(Buckets(records[..|records| - 1]), records[|records| - 1])
  }

  function CorrectRuns(records: seq<RunRecord>): nat {
    if records == [] then 0
    else CorrectRuns(records[..|records| - 1]) + if records[|records| - 1].decisionOk then 1 else 0
  }

  // by_taxonomy_code of build_deterministic_engine_metrics
  method BucketByCode(records: seq<RunRecord>) returns (buckets: map<string, Bucket>)
    ensures buckets == Buckets(records)
  {
    buckets := map[];
    for i := 0 to |records|
      invariant buckets == Buckets(records[..i])
    {
      var r := records[i];
      assert records[..i + 1][..i] == records[..i];
      if r.injected !in buckets {
        buckets := buckets[r.injected := Bucket(0, 0)];
      }
      buckets := buckets[r.injected := buckets[r.injected].(total := buckets[r.injected].total + 1)];
      if r.decisionOk {
        buckets := buckets[r.injected := buckets[r.injected].(correct := buckets[r.injected].correct + 1)];
      }
    }
    assert records[..|records|] == records;
  }

  ghost function SumOf(buckets: map<string, Bucket>): Bucket
    decreases |buckets|
  {
    if buckets == map[] then Bucket(0, 0)
    else
      var k :| k in buckets;
      var rest := SumOf(buckets - {k});
      Bucket(rest.correct + buckets[k].correct, rest.total + buckets[k].total)
  }

  // Any bucket may be taken out first.
  lemma {:induction false} TakeOut(buckets: map<string, Bucket>, k: string)
    requires k in buckets
    ensures var rest := SumOf(buckets - {k});
      SumOf(buckets) == Bucket(rest.correct + buckets[k].correct, rest.total + buckets[k].total)
    decreases |buckets|
  {
    var first :| first in buckets && SumOf(buckets) == (
      var rest := SumOf(buckets - {first});
      Bucket(rest.correct + buckets[first].correct, rest.total + buckets[first].total));
    if first != k {
      TakeOut(buckets - {first}, k);
      TakeOut(buckets - {k}, first);
      assert buckets - {first} - {k} == buckets - {k} - {first};
    }
  }

  lemma PutAddsOne(buckets: map<string, Bucket>, r: RunRecord)
    ensures var s := SumOf(buckets);
      SumOf(Put(buckets, r)) == Bucket(s.correct + if r.decisionOk then 1 else 0, s.total + 1)
  {
    var after := Put(buckets, r);
    TakeOut(after, r.injected);
    assert after - {r.injected} == buckets - {r.injected};
    if r.injected in buckets {
      TakeOut(buckets, r.injected);
    } else {
      assert buckets - {r.injected} == buckets;
    }
  }

  // Every run is in exactly one bucket.
  lemma {:induction false} BucketsAddUp(records: seq<RunRecord>)
    ensures SumOf(Buckets(records)) == Bucket(CorrectRuns(records), |records|)
  {
    if records != [] {
      BucketsAddUp(records[..|records| - 1]);
      PutAddsOne(Buckets(records[..|records| - 1]), records[|records| - 1]);
    }
  }

  ghost function CodePlaces(records: seq<RunRecord>, code: string): set<int> {
    set i | 0 <= i < |records| && records[i].injected == code
  }

  ghost function CorrectPlaces(records: seq<RunRecord>, code: string): set<int> {
    set i | 0 <= i < |records| && records[i].injected == code && records[i].decisionOk
  }

  lemma CodePlacesGrow(records: seq<RunRecord>, code: string)
    requires records != []
    ensures var n := |records| - 1;
      |CodePlaces(records, code)| == |CodePlaces(records[..n], code)| + if records[n].injected == code then 1 else 0
  {
    var n := |records| - 1;
    var less, here := CodePlaces(records[..n], code), if records[n].injected == code then {n} else {};
    assert CodePlaces(records, code) == less + here && less !! here;
  }

  lemma CorrectPlacesGrow(records: seq<RunRecord>, code: string)
    requires records != []
    ensures var n := |records| - 1;
      |CorrectPlaces(records, code)| == |CorrectPlaces(records[..n], code)| + if records[n].injected == code
      && records[n].decisionOk then 1 else 0
  {
    var n := |records| - 1;
    var less, here := CorrectPlaces(records[..n], code), if records[n].injected == code && records[n].decisionOk then
      {n} else {};
    assert CorrectPlaces(records, code) == less + here && less !! here;
  }

  function BucketOf(buckets: map<string, Bucket>, code: string): Bucket {
    if code in buckets then buckets[code] else Bucket(0, 0)
  }

  // A bucket holds the runs of its code: how many there are, and how many of them are correct.
  lemma {:induction false} BucketHolds(records: seq<RunRecord>, code: string)
    ensures code in Buckets(records) <==> exists i :: 0 <= i < |records| && records[i].injected == code
    ensures BucketOf(Buckets(records), code)
      == Bucket(|CorrectPlaces(records, code)|, |CodePlaces(records, code)|)
  {
    hide CodePlaces, CorrectPlaces;
    if records == [] {
      NoBucket(code);
    } else {
      var n := |records| - 1;
      BucketHolds(records[..n], code);
      CodePlacesGrow(records, code);
      CorrectPlacesGrow(records, code);
      forall i | 0 <= i < n ensures records[..n][i] == records[i] {}
    }
  }

  lemma NoBucket(code: string)
    ensures CodePlaces([], code) == {} && CorrectPlaces([], code) == {}
  {}

  // ----- the paired marginal of a learned rule -----

  function IdsOf(records: seq<RunRecord>): set<string> {
    set i | 0 <= i < |records| :: records[i].id
  }

  // The last record of an id, as a dict built from the list holds it.
  function ById(records: seq<RunRecord>): (m: map<string, RunRecord>)
    ensures m.Keys == IdsOf(records)
  {
    if records == [] then map[]
    else
      var m := ById(records[..|records| - 1])[records[|records| - 1].id := records[|records| - 1]];
      assert m.Keys == IdsOf(records) by {
        IdsGrow(records);
      }
      m
  }

  lemma IdsGrow(records: seq<RunRecord>)
    requires records != []
    ensures IdsOf(records) == IdsOf(records[..|records| - 1]) + {records[|records| - 1].id}
  {
    var n := |records| - 1;
    forall x | x in IdsOf(records) ensures x in IdsOf(records[..n]) + {records[n].id} {
      var i :| 0 <= i < |records| && records[i].id == x;
      assert i < n ==> records[..n][i].id == x;
    }
    forall x | x in IdsOf(records[..n]) ensures x in IdsOf(records) {
      var i :| 0 <= i < n && records[..n][i].id == x;
      assert records[i].id == x;
    }
  }

  datatype Marginal = Marginal(cases: nat, correctWithout: nat, correctWith: nat, newlyCorrect: nat,
    newlyIncorrect: nat, delta: int)

  function Changed(from: map<string, RunRecord>, to: map<string, RunRecord>): set<string>
    requires from.Keys == to.Keys
  {
    set id | id in from && to[id].decisionOk && !from[id].decisionOk
  }

  lemma OneLess(s: set<string>, rest: set<string>, id: string)
    requires id in rest
    ensures |s - (rest - {id})| == |s - rest| + if id in s then 1 else 0
  {
    assert s - (rest - {id}) == (s - rest) + if id in s then {id} else {};
  }

  lemma InChanged(from: map<string, RunRecord>, to: map<string, RunRecord>, id: string)
    requires from.Keys == to.Keys && id in from
    ensures id in Changed(from, to) <==> to[id].decisionOk && !from[id].decisionOk
  {}

  lemma ChangedAreKeys(from: map<string, RunRecord>, to: map<string, RunRecord>)
    requires from.Keys == to.Keys
    ensures Changed(from, to) - to.Keys == {}
  {}

  // The ids are visited in some order; the counts do not depend on it.
  method CountChanges(without: map<string, RunRecord>, with: map<string, RunRecord>) returns (gained: nat, lost: nat)
    requires with.Keys == without.Keys
    ensures gained == |Changed(without, with)| && lost == |Changed(with, without)|
  {
    hide Changed;
    ghost var up, down := Changed(without, with), Changed(with, without);
    gained, lost := 0, 0;
    var rest := with.Keys;
    ChangedAreKeys(without, with);
    ChangedAreKeys(with, without);
    while rest != {}
      invariant rest <= with.Keys && gained == |up - rest| && lost == |down - rest|
      decreases |rest|
    {
      var id :| id in rest;
      OneLess(up, rest, id);
      OneLess(down, rest, id);
      InChanged(without, with, id);
      InChanged(with, without, id);
      var w, wo := with[id].decisionOk, without[id].decisionOk;
      rest := rest - {id};
      if w && !wo {
        gained := gained + 1;
      } else if wo && !w {
        lost := lost + 1;
      }
    }
    assert up - rest == up && down - rest == down;
  }

  // None when the two passes cover different cases.
  function MarginalOf(withRule: seq<RunRecord>, withoutRule: seq<RunRecord>): Option<Marginal> {
    if IdsOf(withRule) != IdsOf(withoutRule) then None
    else
      var (gained, lost) :=
        (|Changed(ById(withoutRule), ById(withRule))|, |Changed(ById(withRule), ById(withoutRule))|);
      Some(Marginal(|IdsOf(withRule)|, CorrectRuns(withoutRule), CorrectRuns(withRule), gained, lost, gained - lost))
  }

  // build_learned_rule_marginal
  method BuildLearnedRuleMarginal(withRule: seq<RunRecord>, withoutRule: seq<RunRecord>) returns (r: Option<Marginal>)
    ensures r == MarginalOf(withRule, withoutRule)
  {
    if IdsOf(withRule) != IdsOf(withoutRule) {
      return None;
    }
    hide Changed, ById, CorrectRuns, IdsOf;
    var gained: int, lost: int := CountChanges(ById(withoutRule), ById(withRule));
    return Some(Marginal(|IdsOf(withRule)|, CorrectRuns(withoutRule), CorrectRuns(withRule), gained, lost,
      gained - lost));
  }

  ghost predicate DistinctRuns(records: seq<RunRecord>) {
    forall i, k :: 0 <= i < k < |records| ==> records[i].id != records[k].id
  }

  function OkIds(m: map<string, RunRecord>): set<string> {
    set id | id in m && m[id].decisionOk
  }

  lemma LastIsNew(records: seq<RunRecord>)
    requires DistinctRuns(records) && records != []
    ensures DistinctRuns(records[..|records| - 1]) && records[|records| - 1].id !in IdsOf(records[..|records| - 1])
  {
    var n := |records| - 1;
    forall i | 0 <= i < n ensures records[..n][i].id != records[n].id {}
  }

  // How many correct records are replaced by a later record of the same id.
  function ReplacedCorrect(records: seq<RunRecord>): nat {
    if records == [] then 0
    else
      var m, last := ById(records[..|records| - 1]), records[|records| - 1];
      ReplacedCorrect(records[..|records| - 1]) + if last.id in m && m[last.id].decisionOk then 1 else 0
  }

  lemma OkIdsPut(m: map<string, RunRecord>, r: RunRecord)
    ensures |OkIds(m[r.id := r])|
      == |OkIds(m)| + (if r.decisionOk then 1 else 0) - if r.id in m && m[r.id].decisionOk then 1 else 0
  {
    assert OkIds(m[r.id := r]) == OkIds(m) - {r.id} + if r.decisionOk then {r.id} else {};
    assert r.id in OkIds(m) <==> r.id in m && m[r.id].decisionOk;
  }

  // A correct record counts by its id unless it is replaced.
  lemma {:induction false} CorrectIsOkIds(records: seq<RunRecord>)
    ensures CorrectRuns(records) == |OkIds(ById(records))| + ReplacedCorrect(records)
  {
    hide IdsOf, OkIds;
    if records == [] {
      NoOkIds();
    } else {
      var n := |records| - 1;
      CorrectIsOkIds(records[..n]);
      OkIdsPut(ById(records[..n]), records[n]);
    }
  }

  lemma {:induction false} NothingReplaced(records: seq<RunRecord>)
    requires DistinctRuns(records)
    ensures ReplacedCorrect(records) == 0
  {
    hide DistinctRuns, IdsOf;
    if records != [] {
      LastIsNew(records);
      NothingReplaced(records[..|records| - 1]);
    }
  }

  lemma NoOkIds()
    ensures OkIds(map[]) == {}
  {}

  lemma DifferenceOfSizes(a: set<string>, b: set<string>)
    ensures |a - b| - |b - a| == |a| - |b|
  {
    assert |a - b| + |a * b| == |a| by { assert (a - b) + (a * b) == a; }
    assert |b - a| + |a * b| == |b| by { assert (b - a) + (a * b) == b; }
  }

  lemma ChangedIsDifference(from: map<string, RunRecord>, to: map<string, RunRecord>)
    requires from.Keys == to.Keys
    ensures Changed(from, to) == OkIds(to) - OkIds(from)
  {}

  // The net delta is the difference of the two correct counts exactly when both passes lose the
  // same number of correct records to repeated ids.
  lemma DeltaIsTheDifferenceIff(withRule: seq<RunRecord>, withoutRule: seq<RunRecord>)
    requires MarginalOf(withRule, withoutRule).Some?
    ensures var m := MarginalOf(withRule, withoutRule).value;
      m.delta == m.correctWith - m.correctWithout <==> ReplacedCorrect(withRule) == ReplacedCorrect(withoutRule)
  {
    hide ById, CorrectRuns, IdsOf, OkIds, Changed, ReplacedCorrect;
    CorrectIsOkIds(withRule);
    CorrectIsOkIds(withoutRule);
    DifferenceOfSizes(OkIds(ById(withRule)), OkIds(ById(withoutRule)));
    ChangedIsDifference(ById(withoutRule), ById(withRule));
    ChangedIsDifference(ById(withRule), ById(withoutRule));
  }

  // For distinct case ids it always is.
  lemma DeltaIsTheDifference(withRule: seq<RunRecord>, withoutRule: seq<RunRecord>)
    requires DistinctRuns(withRule) && DistinctRuns(withoutRule) && MarginalOf(withRule, withoutRule).Some?
    ensures var m := MarginalOf(withRule, withoutRule).value; m.delta == m.correctWith - m.correctWithout
  {
    hide *;
    NothingReplaced(withRule);
    NothingReplaced(withoutRule);
    DeltaIsTheDifferenceIff(withRule, withoutRule);
  }

  lemma OneRecord(r: RunRecord)
    ensures ById([r]) == map[r.id := r] && IdsOf([r]) == {r.id} && ReplacedCorrect([r]) == 0
  {
    assert [r][..0] == [];
    assert [r][0].id == r.id;
  }

  lemma SameRecordTwice(r: RunRecord)
    requires r.decisionOk
    ensures IdsOf([r, r]) == {r.id} && ReplacedCorrect([r, r]) == 1
  {
    hide IdsOf;
    OneRecord(r);
    assert [r, r][..1] == [r];
    IdsGrow([r, r]);
  }

  // With a repeated id it need not be.
  lemma RepeatedIdsBreakTheDelta(r: RunRecord)
    requires r.decisionOk
    ensures var m := MarginalOf([r, r], [r.(decisionOk := false)]);
      m.Some? && m.value.delta != m.value.correctWith - m.value.correctWithout
  {
    hide ById, CorrectRuns, IdsOf, Changed, ReplacedCorrect;
    SameRecordTwice(r);
    OneRecord(r.(decisionOk := false));
    DeltaIsTheDifferenceIff([r, r], [r.(decisionOk := false)]);
  }

  // ----- gated rules -----

  // What the model answers about a case.
  datatype Answers = Answers(triage: Outcome<TriageResult>, synthesis: Outcome<Proposal>)

  // Answers that differ at most in what an available proposal says.
  ghost predicate Alike(a: Answers, b: Answers) {
    && a.triage == b.triage
    && (a.synthesis == b.synthesis
        || (a.synthesis.Returned? && b.synthesis.Returned? && a.synthesis.value.Available?
            && b.synthesis.value.Available?))
  }

  // The records of one pass over the cases, with the answers it got about each of them.
  function Pass(cases: seq<(string, Dossier, Truth)>, c: Config, answers: nat -> Answers): seq<RunRecord> {
    seq(|cases|, i requires 0 <= i < |cases| =>
      RecordFrom(cases[i].0, cases[i].2, "", Screen(cases[i].1, c, answers(i).triage, answers(i).synthesis)))
  }

  ghost predicate GatedOn(d: Dossier, known: seq<(string, Dossier)>) {
    exists k :: 0 <= k < |known| && known[k].1 == d
  }

  lemma AlikeFindings(d: Dossier, c: Config, a: Answers, b: Answers)
    requires Alike(a, b)
    ensures var (r, s) := (Screen(d, c, a.triage, a.synthesis), Screen(d, c, b.triage, b.synthesis));
      r.findings == s.findings && r.decision == s.decision
  {
    hide Screen;
    if a.synthesis != b.synthesis {
      ProposalContentIsIrrelevant(d, c, a.triage, a.synthesis.value, b.synthesis.value);
    }
  }

  lemma SameRecord(id: string, t: Truth, r: AgentResult, s: AgentResult)
    requires r.findings == s.findings && r.decision == s.decision
    ensures RecordFrom(id, t, "", r) == RecordFrom(id, t, "", s)
  {}

  // One gated case: a promoted set and no rules at all leave the same record.
  lemma GatedCase(id: string, d: Dossier, t: Truth, c: Config, rules: seq<Rules.CandidateRule>,
        known: seq<(string, Dossier)>, a: Answers, b: Answers)
    requires RulePromotion.AllPass(c.registry, rules, known) && GatedOn(d, known) && Alike(a, b)
    ensures RecordFrom(id, t, "", Screen(d, c.(rules := rules), a.triage, a.synthesis))
      == RecordFrom(id, t, "", Screen(d, c.(rules := []), b.triage, b.synthesis))
  {
    hide Screen, RulePromotion.AllPass, Alike, RecordFrom;
    var k :| 0 <= k < |known| && known[k].1 == d;
    GatedRulesChangeNothing(d, c, rules, known, k, a.triage, a.synthesis);
    AlikeFindings(d, c.(rules := []), a, b);
    SameRecord(id, t, Screen(d, c.(rules := rules), a.triage, a.synthesis),
      Screen(d, c.(rules := []), b.triage, b.synthesis));
  }

  lemma SamePass(cases: seq<(string, Dossier, Truth)>, c: Config, rules: seq<Rules.CandidateRule>,
        known: seq<(string, Dossier)>, a: nat -> Answers, b: nat -> Answers)
    requires RulePromotion.AllPass(c.registry, rules, known) && forall i: nat :: Alike(a(i), b(i))
    requires forall i :: 0 <= i < |cases| ==> GatedOn(cases[i].1, known)
    ensures Pass(cases, c.(rules := rules), a) == Pass(cases, c.(rules := []), b)
  {
    hide Screen, RulePromotion.AllPass, Alike, RecordFrom, GatedOn;
    forall i | 0 <= i < |cases|
      ensures RecordFrom(cases[i].0, cases[i].2, "",
        Screen(cases[i].1, c.(rules := rules), a(i).triage, a(i).synthesis))
        == RecordFrom(cases[i].0, cases[i].2, "", Screen(cases[i].1, c.(rules := []), b(i).triage, b(i).synthesis))
    {
      GatedCase(cases[i].0, cases[i].1, cases[i].2, c, rules, known, a(i), b(i));
    }
  }

  lemma NothingChanged(records: seq<RunRecord>)
    ensures MarginalOf(records, records)
      == Some(Marginal(|IdsOf(records)|, CorrectRuns(records), CorrectRuns(records), 0, 0, 0))
  {
    hide IdsOf, CorrectRuns, ById;
    assert Changed(ById(records), ById(records)) == {};
  }

  // The whole promoted set against none, on cases every promoted rule was gated on, whatever the
  // model answers about each case and whatever the two passes propose: nothing is newly correct and
  // nothing newly incorrect.
  lemma GatedRulesHaveNoMarginal(cases: seq<(string, Dossier, Truth)>, c: Config, rules: seq<Rules.CandidateRule>,
        known: seq<(string, Dossier)>, a: nat -> Answers, b: nat -> Answers)
    requires RulePromotion.AllPass(c.registry, rules, known) && forall i: nat :: Alike(a(i), b(i))
    requires forall i :: 0 <= i < |cases| ==> GatedOn(cases[i].1, known)
    ensures var (withRules, withoutRules) := (Pass(cases, c.(rules := rules), a), Pass(cases, c.(rules := []), b));
      MarginalOf(withRules, withoutRules)
        == Some(Marginal(|IdsOf(withRules)|, CorrectRuns(withoutRules), CorrectRuns(withoutRules), 0, 0, 0))
  {
    hide Pass, RulePromotion.AllPass, Alike, GatedOn, MarginalOf, IdsOf, CorrectRuns;
    SamePass(cases, c, rules, known, a, b);
    NothingChanged(Pass(cases, c.(rules := []), b));
  }
}
