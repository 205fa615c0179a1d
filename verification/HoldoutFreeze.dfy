/** The freeze of the holdout corpus: two files, each replaced atomically, the manifest last. Runs
    may be killed anywhere and repeated in any number; the fixtures do not change. */
module HoldoutFreeze {
  import opened Contracts
  import opened Graph
  import opened Guardrail
  import opened Metrics
  import FailClosed
  import Trajectory

  // ----- observation -----

  datatype HoldoutCase = HoldoutCase(id: string, dossier: Dossier, truth: Truth)

  datatype Row = Row(
    id: string, expected: Decision, observed: Decision, decisionMatch: bool, findingMatch: bool, trajectoryMatch: bool)

  datatype Observation = Observation(
    rows: seq<Row>, decisionMatches: nat, findingMatches: nat, trajectoryMatches: nat, cases: nat,
    nonApprove: nat, falseApprovals: seq<string>)

  // A run against the stub that mirrors the policy and raises no concern.
  function StubRun(d: Dossier, c: Config): AgentResult {
    Screen(d, c, Returned(TriageResult([])), Returned(Available(Decide(BaseFindings(d, c)), "")))
  }

  function RowOf(h: HoldoutCase, c: Config): Row {
    var r := StubRun(h.dossier, c);
    Row(h.id, h.truth.decision, r.decision, DecisionMatch(r, h.truth), FindingMatch(r, h.truth),
      Trajectory.TrajectoryMatch(r.trajectory, r.skipped, h.truth.flow))
  }

  function Rows(cases: seq<HoldoutCase>, c: Config): seq<Row> {
    seq(|cases|, i requires 0 <= i < |cases| => RowOf(cases[i], c))
  }

  function Count(flags: seq<bool>): nat {
    if flags == [] then 0 else Count(flags[..|flags| - 1]) + if flags[|flags| - 1] then 1 else 0
  }

  function Decisions(rows: seq<Row>): seq<bool> {
    seq(|rows|, i requires 0 <= i < |rows| => rows[i].decisionMatch)
  }

  function FindingFlags(rows: seq<Row>): seq<bool> {
    seq(|rows|, i requires 0 <= i < |rows| => rows[i].findingMatch)
  }

  function TrajectoryFlags(rows: seq<Row>): seq<bool> {
    seq(|rows|, i requires 0 <= i < |rows| => rows[i].trajectoryMatch)
  }

  function NonApprove(rows: seq<Row>): seq<Row> {
    if rows == [] then []
    else NonApprove(rows[..|rows| - 1]) + if rows[|rows| - 1].expected.Approve? then [] else [rows[|rows| - 1]]
  }

  function FalseApprovals(rows: seq<Row>): seq<string> {
    if rows == [] then []
    else FalseApprovals(rows[..|rows| - 1]) + if rows[|rows| - 1].observed.Approve? then [rows[|rows| - 1].id] else []
  }

  function Summarize(rows: seq<Row>): Observation {
    Observation(rows, Count(Decisions(rows)), Count(FindingFlags(rows)), Count(TrajectoryFlags(rows)), |rows|,
      |NonApprove(rows)|, FalseApprovals(NonApprove(rows)))
  }

  // _observe_holdout
  method ObserveHoldout(cases: seq<HoldoutCase>, c: Config) returns (o: Observation)
    ensures o == Summarize(Rows(cases, c))
  {
    hide RowOf, Summarize;
    var rows: seq<Row> := [];
    for i := 0 to |cases|
      invariant rows == Rows(cases, c)[..i]
    {
      rows := rows + [RowOf(cases[i], c)];
    }
    assert Rows(cases, c)[..|cases|] == Rows(cases, c);
    return Summarize(rows);
  }

  // What a row says: the decision of a run whose model agrees with the policy, and whether decision,
  // codes and trajectory are those of the truth.
  lemma RowSays(h: HoldoutCase, c: Config)
    ensures var (r, row, base) := (StubRun(h.dossier, c), RowOf(h, c), BaseFindings(h.dossier, c));
      && r.findings == base && !r.guardrail.overridden
      && row.id == h.id && row.expected == h.truth.decision && row.observed == Decide(base)
      && (row.decisionMatch <==> Decide(base) == h.truth.decision)
      && (row.findingMatch <==> AgentFindingCodes(base) == h.truth.codes)
      && (row.trajectoryMatch <==> Trajectory.Conforms(r.trajectory, r.skipped, h.truth.flow))
  {
    hide Screen, BaseFindings, Decide, Trajectory.TrajectoryMatch, Trajectory.Conforms, AgentFindingCodes;
    var r, base := StubRun(h.dossier, c), BaseFindings(h.dossier, c);
    var t: Outcome<TriageResult>, s: Outcome<Proposal> := Returned(TriageResult([])),
      Returned(Available(Decide(base), ""));
    FindingsAreAccountedFor(h.dossier, c, t, s);
    FailClosed.GuardrailSays(h.dossier, c, t, s);
    assert base + [] + [] == base;
    Trajectory.MatchIffConforms(r.trajectory, r.skipped, h.truth.flow);
  }

  ghost predicate CountIs(n: nat, flags: seq<bool>) {
    n == |set i | 0 <= i < |flags| && flags[i]|
  }

  lemma {:induction false} CountsFlags(flags: seq<bool>)
    ensures CountIs(Count(flags), flags)
  {
    if flags != [] {
      var n := |flags| - 1;
      CountsFlags(flags[..n]);
      var less := set i | 0 <= i < |flags[..n]| && flags[..n][i];
      assert (set i | 0 <= i < |flags| && flags[i]) == less + if flags[n] then {n} else {};
    }
  }

  ghost function ShouldNotApprove(rows: seq<Row>): set<int> {
    set i | 0 <= i < |rows| && rows[i].expected != Approve
  }

  lemma {:induction false} NonApprovals(rows: seq<Row>)
    ensures |NonApprove(rows)| == |ShouldNotApprove(rows)|
  {
    if rows == [] {
      assert ShouldNotApprove(rows) == {};
    } else {
      var n := |rows| - 1;
      NonApprovals(rows[..n]);
      assert ShouldNotApprove(rows) == ShouldNotApprove(rows[..n]) + if rows[n].expected != Approve then {n} else {};
    }
  }

  lemma {:induction false} NonApproveIff(rows: seq<Row>, r: Row)
    ensures r in NonApprove(rows) <==> r in rows && r.expected != Approve
  {
    if rows != [] {
      NonApproveIff(rows[..|rows| - 1], r);
      assert rows == rows[..|rows| - 1] + [rows[|rows| - 1]];
    }
  }

  lemma {:induction false} ApprovedIff(rows: seq<Row>, id: string)
    ensures id in FalseApprovals(rows) <==> exists r :: r in rows && r.id == id && r.observed == Approve
  {
    if rows != [] {
      var n := |rows| - 1;
      ApprovedIff(rows[..n], id);
      assert rows == rows[..n] + [rows[n]];
      assert rows[n] in rows;
    }
  }

  lemma FalselyApproved(rows: seq<Row>, id: string)
    ensures id in FalseApprovals(NonApprove(rows))
      <==> exists r :: r in rows && r.id == id && r.expected != Approve && r.observed == Approve
  {
    hide FalseApprovals, NonApprove;
    ApprovedIff(NonApprove(rows), id);
    forall r ensures r in NonApprove(rows) <==> r in rows && r.expected != Approve { NonApproveIff(rows, r); }
  }

  // What the numbers of an observation count, and which ids its false approvals are.
  lemma SummaryCounts(rows: seq<Row>)
    ensures var o := Summarize(rows);
      && o.rows == rows && o.cases == |rows|
      && CountIs(o.decisionMatches, seq(|rows|, i requires 0 <= i < |rows| => rows[i].decisionMatch))
      && CountIs(o.findingMatches, seq(|rows|, i requires 0 <= i < |rows| => rows[i].findingMatch))
      && CountIs(o.trajectoryMatches, seq(|rows|, i requires 0 <= i < |rows| => rows[i].trajectoryMatch))
      && o.nonApprove == |ShouldNotApprove(rows)|
      && forall id :: id in o.falseApprovals <==>
           exists r :: r in rows && r.id == id && r.expected != Approve && r.observed == Approve
  {
    hide Count, CountIs, NonApprove, FalseApprovals, ShouldNotApprove;
    CountsFlags(Decisions(rows));
    CountsFlags(FindingFlags(rows));
    CountsFlags(TrajectoryFlags(rows));
    NonApprovals(rows);
    forall id ensures id in FalseApprovals(NonApprove(rows)) <==>
      exists r :: r in rows && r.id == id && r.expected != Approve && r.observed == Approve
    {
      FalselyApproved(rows, id);
    }
  }

  predicate RowMatches(r: Row) {
    r.decisionMatch && r.findingMatch && r.trajectoryMatch
  }

  function MismatchingIds(rows: seq<Row>): seq<string> {
    if rows == [] then []
    else MismatchingIds(rows[..|rows| - 1]) + if RowMatches(rows[|rows| - 1]) then [] else [rows[|rows| - 1].id]
  }

  // validate_observation
  predicate Accepted(o: Observation) {
    && MismatchingIds(o.rows) == []
    && o.decisionMatches == o.cases && o.findingMatches == o.cases && o.trajectoryMatches == o.cases
  }

  lemma {:induction false} NoMismatch(rows: seq<Row>)
    ensures MismatchingIds(rows) == [] <==> forall i :: 0 <= i < |rows| ==> RowMatches(rows[i])
  {
    if rows != [] {
      NoMismatch(rows[..|rows| - 1]);
    }
  }

  lemma {:induction false} AllCounted(flags: seq<bool>)
    ensures Count(flags) <= |flags|
    ensures Count(flags) == |flags| <==> forall i :: 0 <= i < |flags| ==> flags[i]
  {
    if flags != [] {
      AllCounted(flags[..|flags| - 1]);
    }
  }

  // An observation is accepted exactly when every row matches on all three axes and the counts say so;
  // for one that was summarized from its rows, the rows alone decide.
  lemma AcceptedIffAllMatch(o: Observation)
    ensures Accepted(o) <==>
      && (forall i :: 0 <= i < |o.rows| ==>
            o.rows[i].decisionMatch && o.rows[i].findingMatch && o.rows[i].trajectoryMatch)
      && o.cases == o.decisionMatches == o.findingMatches == o.trajectoryMatches
    ensures o == Summarize(o.rows) ==> (Accepted(o) <==> forall i :: 0 <= i < |o.rows| ==> RowMatches(o.rows[i]))
  {
    NoMismatch(o.rows);
    AllCounted(Decisions(o.rows));
    AllCounted(FindingFlags(o.rows));
    AllCounted(TrajectoryFlags(o.rows));
    assert (forall i :: 0 <= i < |o.rows| ==> RowMatches(o.rows[i])) ==>
      (forall i :: 0 <= i < |o.rows| ==> Decisions(o.rows)[i] && FindingFlags(o.rows)[i] && TrajectoryFlags(o.rows)[i]);
  }

  lemma {:induction false} NonApproveRows(rows: seq<Row>)
    ensures forall r :: r in NonApprove(rows) ==> r in rows && !r.expected.Approve?
  {
    if rows != [] {
      NonApproveRows(rows[..|rows| - 1]);
    }
  }

  lemma {:induction false} NothingApproved(rows: seq<Row>)
    requires forall r :: r in rows ==> !r.observed.Approve?
    ensures FalseApprovals(rows) == []
  {
    if rows != [] {
      NothingApproved(rows[..|rows| - 1]);
    }
  }

  // A corpus that may be frozen has no false approval.
  lemma AcceptedHasNoFalseApproval(cases: seq<HoldoutCase>, c: Config)
    requires Accepted(Summarize(Rows(cases, c)))
    ensures Summarize(Rows(cases, c)).falseApprovals == []
  {
    hide StubRun, FindingMatch, Trajectory.TrajectoryMatch, Accepted;
    var rows := Rows(cases, c);
    AcceptedIffAllMatch(Summarize(rows));
    NonApproveRows(rows);
    forall r | r in NonApprove(rows) ensures !r.observed.Approve? {
      var i :| 0 <= i < |rows| && rows[i] == r;
      assert RowMatches(rows[i]);
    }
    NothingApproved(NonApprove(rows));
  }

  // ----- the two files -----

  datatype Fixtures = Fixtures(seeds: seq<(string, string)>, seedHash: string, holdout: seq<HoldoutCase>,
    holdoutHash: string, config: Config)

  datatype Pin = Pin(cases: seq<(string, string)>, hash: string)
  datatype Manifest = Manifest(version: string, frozenAt: int, hash: string, observation: Observation)

  // A temporary file is absent, torn by a kill in the middle of the write, or complete.
  datatype Temp<T> = NoTemp | Torn | Staged(payload: T)

  datatype Disk = Disk(manifest: Option<Manifest>, pin: Option<Pin>, manifestTemp: Temp<Manifest>, pinTemp: Temp<Pin>)

  const SEED_COUNT: nat := 8

  function BuildSeedPin(fx: Fixtures): Pin {
    Pin(fx.seeds, fx.seedHash)
  }

  function BuildManifest(fx: Fixtures, version: string, now: int): Manifest {
    Manifest(version, now, fx.holdoutHash, Summarize(Rows(fx.holdout, fx.config)))
  }

  // Where a run is killed, if it is.
  datatype Kill = BeforeWriting | WritingPinTemp | BeforePinReplace | AfterPinReplace | WritingManifestTemp
    | BeforeManifestReplace | NotKilled

  datatype Run = Run(version: string, now: int, kill: Kill)

  datatype Verdict = RefusedFrozen | RefusedSeedCount | RefusedMismatch | Killed | Frozen

  function VerdictOf(d: Disk, fx: Fixtures, r: Run): Verdict {
    if d.manifest.Some? then RefusedFrozen
    else if |fx.seeds| != SEED_COUNT then RefusedSeedCount
    else if !Accepted(BuildManifest(fx, r.version, r.now).observation) then RefusedMismatch
    else if r.kill.NotKilled? then Frozen
    else Killed
  }

  // The disk after the writes that happened before the kill.
  function AfterWrites(d: Disk, pin: Pin, manifest: Manifest, kill: Kill): Disk {
    match kill
    case BeforeWriting => d
    case WritingPinTemp => d.(pinTemp := Torn)
    case BeforePinReplace => d.(pinTemp := Staged(pin))
    case AfterPinReplace => d.(pinTemp := NoTemp, pin := Some(pin))
    case WritingManifestTemp => d.(pinTemp := NoTemp, pin := Some(pin), manifestTemp := Torn)
    case BeforeManifestReplace => d.(pinTemp := NoTemp, pin := Some(pin), manifestTemp := Staged(manifest))
    case NotKilled => d.(pinTemp := NoTemp, pin := Some(pin), manifestTemp := NoTemp, manifest := Some(manifest))
  }

  function AfterRun(d: Disk, fx: Fixtures, r: Run): Disk {
    match VerdictOf(d, fx, r)
    case Killed => AfterWrites(d, BuildSeedPin(fx), BuildManifest(fx, r.version, r.now), r.kill)
    case Frozen => AfterWrites(d, BuildSeedPin(fx), BuildManifest(fx, r.version, r.now), r.kill)
    case _ => d
  }

  function AfterRuns(d: Disk, fx: Fixtures, runs: seq<Run>): Disk {
    if runs == [] then d else AfterRun(AfterRuns(d, fx, runs[..|runs| - 1]), fx, runs[|runs| - 1])
  }

  class FreezeDirectory {
    var manifest: Option<Manifest>
    var pin: Option<Pin>
    var manifestTemp: Temp<Manifest>
    var pinTemp: Temp<Pin>

    function Snapshot(): Disk
      reads this
    {
      Disk(manifest, pin, manifestTemp, pinTemp)
    }

    constructor (d: Disk)
      ensures Snapshot() == d
    {
      manifest, pin, manifestTemp, pinTemp := d.manifest, d.pin, d.manifestTemp, d.pinTemp;
    }

    // _atomic_write of the seed pin; false when killed on the way.
    method WritePin(p: Pin, kill: Kill) returns (alive: bool)
      modifies this`pin, this`pinTemp
      ensures alive <==> !(kill.WritingPinTemp? || kill.BeforePinReplace?)
      ensures alive ==> pin == Some(p) && pinTemp == NoTemp
      ensures !alive ==> pin == old(pin) && pinTemp == if kill.WritingPinTemp? then Torn else Staged(p)
    {
      pinTemp := Torn;
      if kill.WritingPinTemp? {
        return false;
      }
      pinTemp := Staged(p);
      if kill.BeforePinReplace? {
        return false;
      }
      pin, pinTemp := Some(pinTemp.payload), NoTemp;
      return true;
    }

    method WriteManifest(m: Manifest, kill: Kill) returns (alive: bool)
      modifies this`manifest, this`manifestTemp
      ensures alive <==> !(kill.WritingManifestTemp? || kill.BeforeManifestReplace?)
      ensures alive ==> manifest == Some(m) && manifestTemp == NoTemp
      ensures !alive
        ==> manifest == old(manifest) && manifestTemp == if kill.WritingManifestTemp? then Torn else Staged(m)
    {
      manifestTemp := Torn;
      if kill.WritingManifestTemp? {
        return false;
      }
      manifestTemp := Staged(m);
      if kill.BeforeManifestReplace? {
        return false;
      }
      manifest, manifestTemp := Some(manifestTemp.payload), NoTemp;
      return true;
    }

    // main
    method Freeze(fx: Fixtures, r: Run) returns (v: Verdict)
      modifies this
      ensures v == VerdictOf(old(Snapshot()), fx, r) && Snapshot() == AfterRun(old(Snapshot()), fx, r)
    {
      if manifest.Some? {
        return RefusedFrozen;
      }
      var seedPin := BuildSeedPin(fx);
      if |seedPin.cases| != SEED_COUNT {
        return RefusedSeedCount;
      }
      var observation := ObserveHoldout(fx.holdout, fx.config);
      var built := Manifest(r.version, r.now, fx.holdoutHash, observation);
      if !Accepted(observation) {
        return RefusedMismatch;
      }
      if r.kill.BeforeWriting? {
        return Killed;
      }
      var alive := WritePin(seedPin, r.kill);
      if !alive || r.kill.AfterPinReplace? {
        return Killed;
      }
      alive := WriteManifest(built, r.kill);
      return if alive then Frozen else Killed;
    }
  }

  // ----- what every sequence of runs keeps -----

  // Every holdout case matched its truth on all three axes.
  ghost predicate AllMatch(fx: Fixtures) {
    forall i :: 0 <= i < |fx.holdout| ==> RowMatches(RowOf(fx.holdout[i], fx.config))
  }

  ghost predicate Freezable(fx: Fixtures) {
    |fx.seeds| == 8 && AllMatch(fx)
  }

  lemma AcceptedIffAllCasesMatch(fx: Fixtures, version: string, now: int)
    ensures Accepted(BuildManifest(fx, version, now).observation) <==> AllMatch(fx)
  {
    hide RowOf, Accepted, RowMatches;
    var rows := Rows(fx.holdout, fx.config);
    AcceptedIffAllMatch(Summarize(rows));
    assert forall i :: 0 <= i < |rows| ==> rows[i] == RowOf(fx.holdout[i], fx.config);
    if AllMatch(fx) {
      forall i | 0 <= i < |rows| ensures RowMatches(rows[i]) {
        assert RowMatches(RowOf(fx.holdout[i], fx.config));
      }
    } else {
      var i :| 0 <= i < |fx.holdout| && !RowMatches(RowOf(fx.holdout[i], fx.config));
      assert !RowMatches(rows[i]);
    }
  }

  // The manifest is the completion marker: if it exists, the pin was written fresh and the
  // corpus matched.
  ghost predicate Marked(d: Disk, fx: Fixtures) {
    d.manifest.Some? ==>
      && d.pin == Some(BuildSeedPin(fx)) && Freezable(fx)
      && d.manifest.value == BuildManifest(fx, d.manifest.value.version, d.manifest.value.frozenAt)
  }

  lemma RunKeepsMark(d: Disk, fx: Fixtures, r: Run)
    requires Marked(d, fx)
    ensures Marked(AfterRun(d, fx, r), fx)
  {
    hide Accepted, AllMatch, Summarize, Rows;
    AcceptedIffAllCasesMatch(fx, r.version, r.now);
  }

  // From any state without a manifest, whatever is left of the pin and the temporary files.
  lemma {:induction false} ManifestMeansComplete(d: Disk, fx: Fixtures, runs: seq<Run>)
    requires d.manifest.None?
    ensures Marked(AfterRuns(d, fx, runs), fx)
  {
    hide Marked, AfterRun;
    if runs == [] {
      Unmarked(d, fx);
    } else {
      ManifestMeansComplete(d, fx, runs[..|runs| - 1]);
      RunKeepsMark(AfterRuns(d, fx, runs[..|runs| - 1]), fx, runs[|runs| - 1]);
    }
  }

  lemma Unmarked(d: Disk, fx: Fixtures)
    requires d.manifest.None?
    ensures Marked(d, fx)
  {}

  // Once there is a manifest, no further run changes anything on the disk.
  lemma {:induction false} FrozenIsForever(d: Disk, fx: Fixtures, runs: seq<Run>)
    requires d.manifest.Some?
    ensures AfterRuns(d, fx, runs) == d
  {
    if runs != [] {
      FrozenIsForever(d, fx, runs[..|runs| - 1]);
    }
  }

  // A corpus that does not match, or the wrong number of seeds, never writes anything.
  lemma {:induction false} MismatchWritesNothing(d: Disk, fx: Fixtures, runs: seq<Run>)
    requires !Freezable(fx)
    ensures AfterRuns(d, fx, runs) == d
  {
    hide Accepted, AllMatch, BuildManifest;
    if runs != [] {
      var last := runs[|runs| - 1];
      MismatchWritesNothing(d, fx, runs[..|runs| - 1]);
      AcceptedIffAllCasesMatch(fx, last.version, last.now);
    }
  }

  // Any state a sequence of killed runs can leave is completed by one plain run: a stale pin
  // and leftover temporary files do not matter.
  lemma PlainRunRecovers(d: Disk, fx: Fixtures, runs: seq<Run>, version: string, now: int)
    requires Freezable(fx) && AfterRuns(d, fx, runs).manifest.None?
    ensures var done := AfterRun(AfterRuns(d, fx, runs), fx, Run(version, now, NotKilled));
      done == Disk(Some(BuildManifest(fx, version, now)), Some(BuildSeedPin(fx)), NoTemp, NoTemp)
  {
    hide Accepted, AllMatch, BuildManifest, AfterRuns;
    AcceptedIffAllCasesMatch(fx, version, now);
  }

  // A killed run never marks completion.
  lemma {:induction false} KilledRunsDoNotMark(d: Disk, fx: Fixtures, runs: seq<Run>)
    requires d.manifest.None? && forall i :: 0 <= i < |runs| ==> !runs[i].kill.NotKilled?
    ensures AfterRuns(d, fx, runs).manifest.None?
  {
    hide Accepted, BuildManifest;
    if runs != [] {
      KilledRunsDoNotMark(d, fx, runs[..|runs| - 1]);
    }
  }
}
