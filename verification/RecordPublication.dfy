/** Publication of an admission record: any number of publishers, and anyone else who creates
    directories, interleaved in any way, with any write, cleanup or parent removal failing and any
    publisher killed at any point. A file is written in two steps: it is opened, then filled.

    `claimer` is history: who created a directory. The protocol never reads it. */
module RecordPublication {
  import opened Contracts

  const JSON_FILENAME := "redteam_admission_record.json"
  const MD_FILENAME := "redteam_admission_record.md"

  datatype Content = Whole(writer: nat) | PartialOf(writer: nat)
  datatype Entry = RegularFile(content: Content) | Symlink | Subdirectory
  datatype Directory = Directory(claimer: Option<nat>, entries: map<string, Entry>)

  datatype Failure = ParentFailed | ParentVanished | Collision | ClaimFailed | WriteFailed | CleanupFailed

  // Where a publisher stands; preexisted is what it saw of the parent directory.
  datatype Stage =
    | Idle
    | Looked(preexisted: bool)
    | Rooted(preexisted: bool)
    | Claimed(preexisted: bool)
    | WritingJson(preexisted: bool)
    | JsonWritten(preexisted: bool)
    | WritingMd(preexisted: bool)
    | Written
    | Failing(preexisted: bool)
    | Cleaned(preexisted: bool)
    | Published
    | Raised(failure: Failure)

  // The parent directory, what is in it, and the publishers.
  datatype World = World(root: bool, dirs: map<string, Directory>, stages: seq<Stage>)

  // How a publisher's next step goes: it succeeds, it fails, or a cleanup fails having removed all
  // but some entries. A process that is killed takes no further step.
  datatype Luck = Succeeds | Fails | KeepsSome(kept: set<string>)

  datatype Action = Step(p: nat, luck: Luck) | Intrude(name: string, entries: map<string, Entry>)

  // _is_valid_record_directory: membership and file type, never contents
  predicate IsValidRecordDirectory(entries: map<string, Entry>) {
    entries.Keys == {JSON_FILENAME, MD_FILENAME} && entries[JSON_FILENAME].RegularFile?
      && entries[MD_FILENAME].RegularFile?
  }

  // A directory is valid exactly when it holds the two files and nothing else, both regular ones.
  lemma ValidMeans(entries: map<string, Entry>)
    ensures IsValidRecordDirectory(entries) <==>
      && (forall k :: k in entries <==> k == "redteam_admission_record.json" || k == "redteam_admission_record.md")
      && forall k :: k in entries ==> entries[k] != Symlink && entries[k] != Subdirectory
  {
    hide JSON_FILENAME, MD_FILENAME;
    Filenames();
  }

  lemma Filenames()
    ensures JSON_FILENAME == "redteam_admission_record.json" && MD_FILENAME == "redteam_admission_record.md"
  {}

  function CompleteRecord(p: nat): map<string, Entry> {
    map[JSON_FILENAME := RegularFile(Whole(p)), MD_FILENAME := RegularFile(Whole(p))]
  }

  // The record of a publisher that has opened the second file and not filled it.
  function TornRecord(p: nat): map<string, Entry> {
    map[JSON_FILENAME := RegularFile(Whole(p)), MD_FILENAME := RegularFile(PartialOf(p))]
  }

  function At(w: World, p: nat, s: Stage): World
    requires p < |w.stages|
  {
    w.(stages := w.stages[p := s])
  }

  // A file written into the publisher's directory, wholly or in part.
  function WithFile(w: World, name: string, file: string, c: Content): World {
    if name in w.dirs then
      w.(dirs := w.dirs[name := w.dirs[name].(entries := w.dirs[name].entries[file := RegularFile(c)])])
    else w
  }

  function Without(w: World, name: string): World {
    w.(dirs := w.dirs - {name})
  }

  function Keeping(w: World, name: string, kept: set<string>): World {
    if name in w.dirs then
      w.(dirs := w.dirs[name :=
        w.dirs[name].(entries := map k | k in w.dirs[name].entries && k in kept :: w.dirs[name].entries[k])])
    else w
  }

  // One step of a publisher under its run id.
  function Advance(w: World, p: nat, name: string, luck: Luck): World
    requires p < |w.stages|
  {
    match w.stages[p]
    case Idle => At(w, p, Looked(w.root))
    case Looked(pre) =>
      if luck.Succeeds? then At(w, p, Rooted(pre)).(root := true) else At(w, p, Raised(ParentFailed))
    case Rooted(pre) =>
      if !luck.Succeeds? then At(w, p, Raised(ClaimFailed))
      else if !w.root then At(w, p, Raised(ParentVanished))
      else if name in w.dirs then At(w, p, Raised(Collision))
      else At(w, p, Claimed(pre)).(dirs := w.dirs[name := Directory(Some(p), map[])])
    case Claimed(pre) =>
      if luck.Succeeds? then At(WithFile(w, name, JSON_FILENAME, PartialOf(p)), p, WritingJson(pre))
      else At(w, p, Failing(pre))
    case WritingJson(pre) =>
      if luck.Succeeds? then At(WithFile(w, name, JSON_FILENAME, Whole(p)), p, JsonWritten(pre))
      else At(w, p, Failing(pre))
    case JsonWritten(pre) =>
      if luck.Succeeds? then At(WithFile(w, name, MD_FILENAME, PartialOf(p)), p, WritingMd(pre))
      else At(w, p, Failing(pre))
    case WritingMd(pre) =>
      if luck.Succeeds? then At(WithFile(w, name, MD_FILENAME, Whole(p)), p, Written) else At(w, p, Failing(pre))
    case Written => At(w, p, Published)
    case Failing(pre) =>
      if luck.Succeeds? then At(Without(w, name), p, Cleaned(pre))
      else if luck.KeepsSome? then At(Keeping(w, name, luck.kept), p, Raised(CleanupFailed))
      else At(w, p, Raised(CleanupFailed))
    case Cleaned(pre) =>
      // best effort, only by who created the parent, and only when it is empty
      if !pre && w.dirs == map[] && luck.Succeeds? then At(w, p, Raised(WriteFailed)).(root := false)
      else At(w, p, Raised(WriteFailed))
    case Published => w
    case Raised(_) => w
  }

  function Apply(w: World, names: seq<string>, a: Action): World {
    match a
    case Step(p, luck) => if p < |w.stages| && p < |names| then Advance(w, p, names[p], luck) else w
    case Intrude(name, entries) =>
      if w.root && name !in w.dirs then w.(dirs := w.dirs[name := Directory(None, entries)]) else w
  }

  // A cleanup that fails having removed all but some entries leaves those and touches nothing else.
  lemma FailedCleanupLeaves(w: World, p: nat, name: string, kept: set<string>)
    requires p < |w.stages| && w.stages[p].Failing? && name in w.dirs
    ensures var after := Advance(w, p, name, KeepsSome(kept));
      && after.root == w.root && after.dirs.Keys == w.dirs.Keys && after.stages[p] == Raised(CleanupFailed)
      && (forall d :: d in w.dirs && d != name ==> after.dirs[d] == w.dirs[d])
      && after.dirs[name].claimer == w.dirs[name].claimer
      && (forall k :: k in after.dirs[name].entries <==> k in w.dirs[name].entries && k in kept)
      && forall k :: k in after.dirs[name].entries ==> after.dirs[name].entries[k] == w.dirs[name].entries[k]
  {}

  // Somebody else's directory appears as it was made, if the parent is there and the name is free.
  lemma IntruderAppears(w: World, names: seq<string>, name: string, entries: map<string, Entry>)
    ensures var after := Apply(w, names, Intrude(name, entries));
      && after.root == w.root && after.stages == w.stages
      && (w.root && name !in w.dirs ==> after.dirs == w.dirs[name := Directory(None, entries)])
      && (!w.root || name in w.dirs ==> after.dirs == w.dirs)
  {}

  function Run(w: World, names: seq<string>, schedule: seq<Action>): World {
    if schedule == [] then w else Apply(Run(w, names, schedule[..|schedule| - 1]), names, schedule[|schedule| - 1])
  }

  // ----- what every interleaving keeps -----

  // The stages in which a publisher's directory exists.
  ghost predicate Holds(s: Stage) {
    || s.Claimed? || s.WritingJson? || s.JsonWritten? || s.WritingMd? || s.Written? || s.Failing? || s.Published?
    || s == Raised(CleanupFailed)
  }

  ghost predicate Finished(s: Stage) {
    s.Written? || s.Published?
  }

  // What a stage leaves in the directory.
  ghost predicate Contents(s: Stage, p: nat, entries: map<string, Entry>) {
    match s
    case Claimed(_) => entries == map[]
    case WritingJson(_) => entries == map[JSON_FILENAME := RegularFile(PartialOf(p))]
    case JsonWritten(_) => entries == map[JSON_FILENAME := RegularFile(Whole(p))]
    case WritingMd(_) => entries == TornRecord(p)
    case Written => entries == CompleteRecord(p)
    case Published => entries == CompleteRecord(p)
    case _ => Remnant(p, entries)
  }

  // What a failed write, and a cleanup that failed too, may leave: the second file is never whole,
  // and beside it the first one always is.
  ghost predicate Remnant(p: nat, entries: map<string, Entry>) {
    && entries.Keys <= {JSON_FILENAME, MD_FILENAME}
    && (MD_FILENAME in entries ==> entries[MD_FILENAME] == RegularFile(PartialOf(p)))
    && (MD_FILENAME in entries && JSON_FILENAME in entries ==> entries[JSON_FILENAME] == RegularFile(Whole(p)))
  }

  // A publisher past its claim owns the directory of its run id, with the contents its stage
  // says; no other directory carries its mark.
  ghost predicate Owns(w: World, names: seq<string>, p: nat)
    requires p < |w.stages| == |names|
  {
    && (Holds(w.stages[p]) ==>
          names[p] in w.dirs && w.dirs[names[p]].claimer == Some(p)
            && Contents(w.stages[p], p, w.dirs[names[p]].entries))
    && (forall d :: d in w.dirs && w.dirs[d].claimer == Some(p) ==> d == names[p] && Holds(w.stages[p]))
  }

  ghost predicate Consistent(w: World, names: seq<string>) {
    && |w.stages| == |names|
    && (!w.root ==> w.dirs == map[])
    && (forall d :: d in w.dirs && w.dirs[d].claimer.Some? ==> w.dirs[d].claimer.value < |w.stages|)
    && forall p: nat :: p < |w.stages| ==> Owns(w, names, p)
  }

  // A world before any of these publishers started.
  ghost predicate Initial(w: World, names: seq<string>) {
    && |w.stages| == |names| && (forall p :: 0 <= p < |w.stages| ==> w.stages[p] == Idle)
    && (!w.root ==> w.dirs == map[]) && forall d :: d in w.dirs ==> w.dirs[d].claimer == None
  }

  lemma InitialIsConsistent(w: World, names: seq<string>)
    requires Initial(w, names)
    ensures Consistent(w, names)
  {}

  lemma AdvanceOwnsItself(w: World, names: seq<string>, p: nat, luck: Luck)
    requires Consistent(w, names) && p < |names|
    ensures Owns(Advance(w, p, names[p], luck), names, p)
  {
    assert Owns(w, names, p);
  }

  lemma AdvanceOwnsOthers(w: World, names: seq<string>, p: nat, luck: Luck, q: nat)
    requires Consistent(w, names) && p < |names| && q < |names| && p != q
    ensures Owns(Advance(w, p, names[p], luck), names, q)
  {
    assert Owns(w, names, p) && Owns(w, names, q);
  }

  lemma AdvanceConsistent(w: World, names: seq<string>, p: nat, luck: Luck)
    requires Consistent(w, names) && p < |names|
    ensures Consistent(Advance(w, p, names[p], luck), names)
  {
    var v := Advance(w, p, names[p], luck);
    forall q: nat | q < |names| ensures Owns(v, names, q) {
      if q == p {
        AdvanceOwnsItself(w, names, p, luck);
      } else {
        AdvanceOwnsOthers(w, names, p, luck, q);
      }
    }
    assert Owns(w, names, p);
  }

  lemma IntrudeConsistent(w: World, names: seq<string>, name: string, entries: map<string, Entry>)
    requires Consistent(w, names)
    ensures Consistent(Apply(w, names, Intrude(name, entries)), names)
  {
    var v := Apply(w, names, Intrude(name, entries));
    forall q: nat | q < |names| ensures Owns(v, names, q) {
      assert Owns(w, names, q);
    }
  }

  lemma {:induction false} RunConsistent(w: World, names: seq<string>, schedule: seq<Action>)
    requires Consistent(w, names)
    ensures Consistent(Run(w, names, schedule), names)
  {
    hide Consistent, Advance;
    if schedule != [] {
      var init, last := schedule[..|schedule| - 1], schedule[|schedule| - 1];
      RunConsistent(w, names, init);
      var v := Run(w, names, init);
      match last
      case Step(p, luck) =>
        if p < |v.stages| && p < |names| {
          AdvanceConsistent(v, names, p, luck);
        }
      case Intrude(name, entries) => IntrudeConsistent(v, names, name, entries);
    }
  }

  // ----- nobody touches a directory but its claimer -----

  lemma OthersAreUntouched(w: World, names: seq<string>, a: Action, d: string)
    requires Consistent(w, names) && d in w.dirs && (a.Step? ==> w.dirs[d].claimer != Some(a.p))
    ensures d in Apply(w, names, a).dirs && Apply(w, names, a).dirs[d] == w.dirs[d]
  {
    if a.Step? && a.p < |names| {
      assert Owns(w, names, a.p);
    }
  }

  // A directory that no publisher created is never modified or removed.
  lemma {:induction false} ForeignDirectoriesSurvive(w: World, names: seq<string>, schedule: seq<Action>, d: string)
    requires Consistent(w, names) && d in w.dirs && w.dirs[d].claimer == None
    ensures d in Run(w, names, schedule).dirs && Run(w, names, schedule).dirs[d] == w.dirs[d]
  {
    hide Consistent, Apply;
    if schedule != [] {
      var init := schedule[..|schedule| - 1];
      ForeignDirectoriesSurvive(w, names, init, d);
      RunConsistent(w, names, init);
      OthersAreUntouched(Run(w, names, init), names, schedule[|schedule| - 1], d);
    }
  }

  // ----- what a publisher returns -----

  // A returned directory holds exactly the claimer's two files, complete, and is valid.
  lemma PublishedIsComplete(w: World, names: seq<string>, schedule: seq<Action>, p: nat)
    requires Initial(w, names) && p < |names|
    ensures var v := Run(w, names, schedule);
      && |v.stages| == |names|
      && (v.stages[p].Published? ==> names[p] in v.dirs && v.dirs[names[p]] == Directory(Some(p), CompleteRecord(p)))
    ensures IsValidRecordDirectory(CompleteRecord(p))
  {
    InitialIsConsistent(w, names);
    RunConsistent(w, names, schedule);
    assert Owns(Run(w, names, schedule), names, p);
  }

  lemma StepKeepsPublished(w: World, names: seq<string>, a: Action, p: nat)
    requires |w.stages| == |names| && p < |names| && w.stages[p].Published?
    ensures |Apply(w, names, a).stages| == |names| && Apply(w, names, a).stages[p].Published?
  {
    hide WithFile, Without, Keeping;
    if a.Step? && a.p < |names| {
      FilesKeepParent(w, names[a.p]);
    }
  }

  lemma {:induction false} PublishedStaysPublished(w: World, names: seq<string>, schedule: seq<Action>, p: nat)
    requires |w.stages| == |names| && p < |names| && w.stages[p].Published?
    ensures |Run(w, names, schedule).stages| == |names| && Run(w, names, schedule).stages[p].Published?
  {
    hide Apply;
    if schedule != [] {
      var init := schedule[..|schedule| - 1];
      PublishedStaysPublished(w, names, init, p);
      StepKeepsPublished(Run(w, names, init), names, schedule[|schedule| - 1], p);
    }
  }

  // ... and keeps holding them, whatever anybody does afterwards.
  lemma PublishedIsForever(w: World, names: seq<string>, before: seq<Action>, after: seq<Action>, p: nat)
    requires Initial(w, names) && p < |names|
    ensures var v := Run(w, names, before);
      && |v.stages| == |names|
      && (v.stages[p].Published? ==>
            names[p] in Run(v, names, after).dirs
              && Run(v, names, after).dirs[names[p]] == Directory(Some(p), CompleteRecord(p)))
  {
    InitialIsConsistent(w, names);
    RunConsistent(w, names, before);
    var v := Run(w, names, before);
    if v.stages[p].Published? {
      PublishedStaysPublished(v, names, after, p);
      RunConsistent(v, names, after);
      assert Owns(Run(v, names, after), names, p);
    }
  }

  // After a reported failure the publisher's directory is gone, unless the failure reported is
  // that of the cleanup.
  lemma RemnantOnlyAfterFailedCleanup(w: World, names: seq<string>, schedule: seq<Action>, p: nat)
    requires Initial(w, names) && p < |names|
    ensures var v := Run(w, names, schedule);
      && |v.stages| == |names|
      && (v.stages[p].Raised? ==>
            ((exists d :: d in v.dirs && v.dirs[d].claimer == Some(p)) <==> v.stages[p].failure == CleanupFailed))
  {
    InitialIsConsistent(w, names);
    RunConsistent(w, names, schedule);
    var v := Run(w, names, schedule);
    assert Owns(v, names, p);
    if v.stages[p] == Raised(CleanupFailed) {
      assert v.dirs[names[p]].claimer == Some(p);
    }
  }

  // One run id is published at most once.
  lemma OneWinner(w: World, names: seq<string>, schedule: seq<Action>, p: nat, q: nat)
    requires Initial(w, names) && p < |names| && q < |names| && p != q && names[p] == names[q]
    ensures var v := Run(w, names, schedule);
      |v.stages| == |names| && !(Holds(v.stages[p]) && Holds(v.stages[q]))
  {
    InitialIsConsistent(w, names);
    RunConsistent(w, names, schedule);
    var v := Run(w, names, schedule);
    assert Owns(v, names, p) && Owns(v, names, q);
  }

  // ----- the parent directory -----

  // A publisher that found no parent, and may therefore remove it.
  predicate MayRemoveParent(s: Stage) {
    match s
    case Looked(pre) => !pre
    case Rooted(pre) => !pre
    case Claimed(pre) => !pre
    case WritingJson(pre) => !pre
    case JsonWritten(pre) => !pre
    case WritingMd(pre) => !pre
    case Failing(pre) => !pre
    case Cleaned(pre) => !pre
    case _ => false
  }

  ghost predicate ParentSafe(w: World) {
    w.root && forall p :: 0 <= p < |w.stages| ==> !MayRemoveParent(w.stages[p])
  }

  lemma StepKeepsParent(w: World, names: seq<string>, a: Action)
    requires ParentSafe(w)
    ensures ParentSafe(Apply(w, names, a))
  {
    hide WithFile, Without, Keeping;
    if a.Step? && a.p < |w.stages| && a.p < |names| {
      var v := Apply(w, names, a);
      FilesKeepParent(w, names[a.p]);
      assert !MayRemoveParent(w.stages[a.p]);
      forall q | 0 <= q < |v.stages| && q != a.p ensures v.stages[q] == w.stages[q] {}
    }
  }

  lemma FilesKeepParent(w: World, name: string)
    ensures Without(w, name).root == w.root && Without(w, name).stages == w.stages
    ensures forall file, c :: WithFile(w, name, file, c).root == w.root && WithFile(w, name, file, c).stages == w.stages
    ensures forall kept :: Keeping(w, name, kept).root == w.root && Keeping(w, name, kept).stages == w.stages
  {}

  // A parent that every publisher found in place is never removed.
  lemma {:induction false} ParentIsKept(w: World, names: seq<string>, schedule: seq<Action>)
    requires ParentSafe(w)
    ensures ParentSafe(Run(w, names, schedule))
  {
    hide ParentSafe, Apply;
    if schedule != [] {
      ParentIsKept(w, names, schedule[..|schedule| - 1]);
      StepKeepsParent(Run(w, names, schedule[..|schedule| - 1]), names, schedule[|schedule| - 1]);
    }
  }

  // ----- the validity predicate -----

  // In every reachable world a claimed directory is complete exactly when its claimer has filled
  // both files.
  lemma CompleteIffFinished(w: World, names: seq<string>, schedule: seq<Action>, p: nat)
    requires Initial(w, names) && p < |names|
    ensures var v := Run(w, names, schedule);
      && |v.stages| == |names|
      && (Holds(v.stages[p]) ==>
            names[p] in v.dirs && (v.dirs[names[p]].entries == CompleteRecord(p) <==> Finished(v.stages[p])))
  {
    InitialIsConsistent(w, names);
    RunConsistent(w, names, schedule);
    var v := Run(w, names, schedule);
    assert Owns(v, names, p);
    assert CompleteRecord(p)[MD_FILENAME] == RegularFile(Whole(p)) && MD_FILENAME in CompleteRecord(p);
  }

  // The directory whose claimer was stopped between opening and filling the second file, or failed
  // there and did not clean up.
  ghost predicate Torn(s: Stage, p: nat, entries: map<string, Entry>) {
    (s.WritingMd? || s.Failing? || s == Raised(CleanupFailed)) && entries == TornRecord(p)
  }

  lemma RemnantIsTorn(p: nat, entries: map<string, Entry>)
    requires Remnant(p, entries)
    ensures IsValidRecordDirectory(entries) <==> entries == TornRecord(p)
  {
    if IsValidRecordDirectory(entries) {
      assert JSON_FILENAME in entries.Keys && MD_FILENAME in entries.Keys;
    }
  }

  // In every reachable world the predicate accepts a claimed directory exactly when it is finished
  // or torn: it implies complete contents unless the writer was stopped at that one point.
  lemma ValidIffFinishedOrTorn(w: World, names: seq<string>, schedule: seq<Action>, p: nat)
    requires Initial(w, names) && p < |names|
    ensures var v := Run(w, names, schedule);
      && |v.stages| == |names|
      && (Holds(v.stages[p]) ==>
            && names[p] in v.dirs
            && (IsValidRecordDirectory(v.dirs[names[p]].entries)
                <==> Finished(v.stages[p]) || Torn(v.stages[p], p, v.dirs[names[p]].entries)))
  {
    InitialIsConsistent(w, names);
    RunConsistent(w, names, schedule);
    var v := Run(w, names, schedule);
    assert Owns(v, names, p);
    if Holds(v.stages[p]) {
      StageIsTorn(v.stages[p], p, v.dirs[names[p]].entries);
    }
  }

  lemma StageIsTorn(s: Stage, p: nat, entries: map<string, Entry>)
    requires Holds(s) && Contents(s, p, entries)
    ensures IsValidRecordDirectory(entries) <==> Finished(s) || Torn(s, p, entries)
  {
    if Remnant(p, entries) {
      RemnantIsTorn(p, entries);
    }
  }

  // Both kinds of torn directory occur: a killed process leaves one with nothing raised, and so
  // does a failed second write whose cleanup fails too.
  lemma ValidDirectoryMayBePartial(name: string) returns (killed: seq<Action>, failed: seq<Action>)
    ensures var (w, d) := (World(true, map[], [Idle]), map[name := Directory(Some(0), TornRecord(0))]);
      Run(w, [name], killed) == World(true, d, [WritingMd(true)])
        && Run(w, [name], failed) == World(true, d, [Raised(CleanupFailed)])
    ensures IsValidRecordDirectory(TornRecord(0)) && TornRecord(0) != CompleteRecord(0)
  {
    hide Run, Advance;
    var w := World(true, map[], [Idle]);
    var empty := map[name := Directory(Some(0), map[])];
    var half := map[name := Directory(Some(0), map[JSON_FILENAME := RegularFile(PartialOf(0))])];
    var first := map[name := Directory(Some(0), map[JSON_FILENAME := RegularFile(Whole(0))])];
    var torn := map[name := Directory(Some(0), TornRecord(0))];
    NoStep(w, name);
    ClaimSteps(name);
    WriteSteps(name, empty, half, first, torn);
    killed := ThenStep(w, name, [], Succeeds, World(true, map[], [Looked(true)]));
    killed := ThenStep(w, name, killed, Succeeds, World(true, map[], [Rooted(true)]));
    killed := ThenStep(w, name, killed, Succeeds, World(true, empty, [Claimed(true)]));
    killed := ThenStep(w, name, killed, Succeeds, World(true, half, [WritingJson(true)]));
    killed := ThenStep(w, name, killed, Succeeds, World(true, first, [JsonWritten(true)]));
    killed := ThenStep(w, name, killed, Succeeds, World(true, torn, [WritingMd(true)]));
    failed := ThenStep(w, name, killed, Fails, World(true, torn, [Failing(true)]));
    failed := ThenStep(w, name, failed, Fails, World(true, torn, [Raised(CleanupFailed)]));
    assert TornRecord(0)[MD_FILENAME] != CompleteRecord(0)[MD_FILENAME];
  }

  lemma NoStep(w: World, name: string)
    ensures Run(w, [name], []) == w
  {}

  lemma ClaimSteps(name: string)
    ensures Advance(World(true, map[], [Idle]), 0, name, Succeeds) == World(true, map[], [Looked(true)])
    ensures Advance(World(true, map[], [Looked(true)]), 0, name, Succeeds) == World(true, map[], [Rooted(true)])
    ensures Advance(World(true, map[], [Rooted(true)]), 0, name, Succeeds)
      == World(true, map[name := Directory(Some(0), map[])], [Claimed(true)])
  {
    OnlyStage(true, map[], Idle, Looked(true));
    OnlyStage(true, map[], Looked(true), Rooted(true));
    OnlyStage(true, map[], Rooted(true), Claimed(true));
    assert map[][name := Directory(Some(0), map[])] == map[name := Directory(Some(0), map[])];
  }

  lemma OneWrite(name: string, entries: map<string, Entry>, file: string, c: Content, s: seq<Stage>)
    ensures WithFile(World(true, map[name := Directory(Some(0), entries)], s), name, file, c)
      == World(true, map[name := Directory(Some(0), entries[file := RegularFile(c)])], s)
  {}

  lemma WriteSteps(name: string, empty: map<string, Directory>, half: map<string, Directory>,
        first: map<string, Directory>, torn: map<string, Directory>)
    requires empty == map[name := Directory(Some(0), map[])]
    requires half == map[name := Directory(Some(0), map[JSON_FILENAME := RegularFile(PartialOf(0))])]
    requires first == map[name := Directory(Some(0), map[JSON_FILENAME := RegularFile(Whole(0))])]
    requires torn == map[name := Directory(Some(0), TornRecord(0))]
    ensures Advance(World(true, empty, [Claimed(true)]), 0, name, Succeeds) == World(true, half, [WritingJson(true)])
    ensures Advance(World(true, half, [WritingJson(true)]), 0, name, Succeeds)
      == World(true, first, [JsonWritten(true)])
    ensures Advance(World(true, first, [JsonWritten(true)]), 0, name, Succeeds) == World(true, torn, [WritingMd(true)])
    ensures Advance(World(true, torn, [WritingMd(true)]), 0, name, Fails) == World(true, torn, [Failing(true)])
    ensures Advance(World(true, torn, [Failing(true)]), 0, name, Fails) == World(true, torn, [Raised(CleanupFailed)])
  {
    hide WithFile;
    OneWrite(name, map[], JSON_FILENAME, PartialOf(0), [Claimed(true)]);
    OneWrite(name, map[JSON_FILENAME := RegularFile(PartialOf(0))], JSON_FILENAME, Whole(0), [WritingJson(true)]);
    OneWrite(name, map[JSON_FILENAME := RegularFile(Whole(0))], MD_FILENAME, PartialOf(0), [JsonWritten(true)]);
    assert map[JSON_FILENAME := RegularFile(PartialOf(0))][JSON_FILENAME := RegularFile(Whole(0))]
      == map[JSON_FILENAME := RegularFile(Whole(0))];
    assert map[JSON_FILENAME := RegularFile(Whole(0))][MD_FILENAME := RegularFile(PartialOf(0))] == TornRecord(0);
    OnlyStage(true, half, Claimed(true), WritingJson(true));
    OnlyStage(true, first, WritingJson(true), JsonWritten(true));
    OnlyStage(true, torn, JsonWritten(true), WritingMd(true));
    OnlyStage(true, torn, WritingMd(true), Failing(true));
    OnlyStage(true, torn, Failing(true), Raised(CleanupFailed));
  }

  // One more step of the only publisher.
  lemma ThenStep(w: World, name: string, before: seq<Action>, luck: Luck, next: World) returns (after: seq<Action>)
    requires |Run(w, [name], before).stages| == 1 && Advance(Run(w, [name], before), 0, name, luck) == next
    ensures Run(w, [name], after) == next
  {
    hide Advance;
    after := before + [Step(0, luck)];
    assert after[..|after| - 1] == before;
  }

  // ----- one publisher by itself -----

  ghost predicate Ended(s: Stage) {
    s.Published? || s.Raised?
  }

  ghost function StepsLeft(s: Stage): nat {
    match s
    case Idle => 9
    case Looked(_) => 8
    case Rooted(_) => 7
    case Claimed(_) => 6
    case WritingJson(_) => 5
    case JsonWritten(_) => 4
    case WritingMd(_) => 3
    case Failing(_) => 2
    case Written => 1
    case Cleaned(_) => 1
    case _ => 0
  }

  // The rest of an undisturbed publication, with the luck of each step.
  ghost function Finish(w: World, name: string, luck: Stage -> Luck): World
    requires |w.stages| == 1
    decreases StepsLeft(w.stages[0])
  {
    if Ended(w.stages[0]) then w else Finish(Advance(w, 0, name, luck(w.stages[0])), name, luck)
  }

  lemma OnlyStage(root: bool, dirs: map<string, Directory>, s: Stage, t: Stage)
    ensures At(World(root, dirs, [s]), 0, t) == World(root, dirs, [t])
  {}

  // The stages around the write of a file.
  ghost predicate WritesOf(file: string, before: Stage, during: Stage, after: Stage) {
    || (file == JSON_FILENAME && before.Claimed? && during == WritingJson(before.preexisted)
        && after == JsonWritten(before.preexisted))
    || (file == MD_FILENAME && before.JsonWritten? && during == WritingMd(before.preexisted) && after == Written)
  }

  ghost function Filed(dirs: map<string, Directory>, name: string, file: string, c: Content): map<string, Directory> {
    WithFile(World(true, dirs, []), name, file, c).dirs
  }

  lemma WriteStep(dirs: map<string, Directory>, name: string, file: string, luck: Stage -> Luck, before: Stage,
        during: Stage, after: Stage)
    requires name in dirs && WritesOf(file, before, during, after)
    ensures Finish(World(true, dirs, [before]), name, luck)
      == if luck(before).Succeeds? then Finish(World(true, Filed(dirs, name, file, PartialOf(0)), [during]), name, luck)
         else Finish(World(true, dirs, [Failing(before.preexisted)]), name, luck)
    ensures Finish(World(true, dirs, [during]), name, luck)
      == if luck(during).Succeeds? then Finish(World(true, Filed(dirs, name, file, Whole(0)), [after]), name, luck)
         else Finish(World(true, dirs, [Failing(before.preexisted)]), name, luck)
  {
    OnlyStage(true, dirs, before, Failing(before.preexisted));
    OnlyStage(true, dirs, during, Failing(before.preexisted));
    OnlyStage(true, Filed(dirs, name, file, PartialOf(0)), before, during);
    OnlyStage(true, Filed(dirs, name, file, Whole(0)), during, after);
  }

  lemma LastStep(dirs: map<string, Directory>, name: string, luck: Stage -> Luck)
    ensures Finish(World(true, dirs, [Written]), name, luck) == World(true, dirs, [Published])
  {
    OnlyStage(true, dirs, Written, Published);
  }

  class FileSystem {
    var root: bool
    var dirs: map<string, Directory>

    constructor (root: bool, dirs: map<string, Directory>)
      ensures this.root == root && this.dirs == dirs
    {
      this.root, this.dirs := root, dirs;
    }

    // publish: None on success, else what was raised.
    method Publish(name: string, luck: Stage -> Luck) returns (failure: Option<Failure>)
      modifies this
      ensures World(root, dirs, [if failure.None? then Published else Raised(failure.value)])
        == Finish(World(old(root), old(dirs), [Idle]), name, luck)
    {
      ghost var whole := Finish(World(root, dirs, [Idle]), name, luck);
      var preexisted := root;
      assert whole == Finish(World(root, dirs, [Looked(preexisted)]), name, luck) by {
        OnlyStage(root, dirs, Idle, Looked(root));
      }
      if !luck(Looked(preexisted)).Succeeds? {
        OnlyStage(root, dirs, Looked(preexisted), Raised(ParentFailed));
        assert whole == Finish(World(root, dirs, [Raised(ParentFailed)]), name, luck);
        return Some(ParentFailed);
      }
      assert whole == Finish(World(true, dirs, [Rooted(preexisted)]), name, luck) by {
        OnlyStage(root, dirs, Looked(preexisted), Rooted(preexisted));
      }
      root := true;
      if !luck(Rooted(preexisted)).Succeeds? {
        OnlyStage(root, dirs, Rooted(preexisted), Raised(ClaimFailed));
        assert whole == Finish(World(root, dirs, [Raised(ClaimFailed)]), name, luck);
        return Some(ClaimFailed);
      }
      if name in dirs {
        OnlyStage(root, dirs, Rooted(preexisted), Raised(Collision));
        assert whole == Finish(World(root, dirs, [Raised(Collision)]), name, luck);
        return Some(Collision);
      }
      assert whole == Finish(World(true, dirs[name := Directory(Some(0), map[])], [Claimed(preexisted)]),
        name, luck) by {
        OnlyStage(root, dirs, Rooted(preexisted), Claimed(preexisted));
      }
      dirs := dirs[name := Directory(Some(0), map[])];
      failure := WriteBoth(name, luck, preexisted);
    }

    // What follows the claim: the two writes and, if one fails, the cleanup.
    method WriteBoth(name: string, luck: Stage -> Luck, preexisted: bool) returns (failure: Option<Failure>)
      requires root && name in dirs
      modifies this
      ensures World(root, dirs, [if failure.None? then Published else Raised(failure.value)])
        == Finish(World(true, old(dirs), [Claimed(preexisted)]), name, luck)
    {
      hide Finish, Advance;
      ghost var whole := Finish(World(true, dirs, [Claimed(preexisted)]), name, luck);
      var ok := Write(name, JSON_FILENAME, luck, Claimed(preexisted), WritingJson(preexisted), JsonWritten(preexisted));
      if ok {
        ok := Write(name, MD_FILENAME, luck, JsonWritten(preexisted), WritingMd(preexisted), Written);
      }
      if !ok {
        failure := CleanUp(name, luck, preexisted);
        return;
      }
      LastStep(dirs, name, luck);
      assert whole == World(root, dirs, [Published]);
      return None;
    }

    // write_text: the file is opened, then filled; false if either raises.
    method Write(name: string, file: string, luck: Stage -> Luck, before: Stage, during: Stage, after: Stage)
      returns (ok: bool)
      requires name in dirs && WritesOf(file, before, during, after)
      modifies this`dirs
      ensures name in dirs
      ensures Finish(World(true, old(dirs), [before]), name, luck)
        == Finish(World(true, dirs, [if ok then after else Failing(before.preexisted)]), name, luck)
    {
      hide WithFile, Advance, Finish;
      WriteStep(dirs, name, file, luck, before, during, after);
      if !luck(before).Succeeds? {
        return false;
      }
      WriteFile(name, file, PartialOf(0));
      WriteStep(dirs, name, file, luck, before, during, after);
      if !luck(during).Succeeds? {
        return false;
      }
      WriteFile(name, file, Whole(0));
      return true;
    }

    method CleanUp(name: string, luck: Stage -> Luck, preexisted: bool) returns (failure: Option<Failure>)
      requires root && name in dirs
      modifies this
      ensures failure.Some?
      ensures World(root, dirs, [Raised(failure.value)])
        == Finish(World(true, old(dirs), [Failing(preexisted)]), name, luck)
    {
      ghost var whole := Finish(World(root, dirs, [Failing(preexisted)]), name, luck);
      var cleanup := luck(Failing(preexisted));
      if !cleanup.Succeeds? {
        if cleanup.KeepsSome? {
          dirs := Keeping(World(root, dirs, []), name, cleanup.kept).dirs;
        }
        OnlyStage(root, dirs, Failing(preexisted), Raised(CleanupFailed));
        assert whole == Finish(World(root, dirs, [Raised(CleanupFailed)]), name, luck);
        return Some(CleanupFailed);
      }
      dirs := dirs - {name};
      OnlyStage(root, dirs, Failing(preexisted), Cleaned(preexisted));
      assert whole == Finish(World(true, dirs, [Cleaned(preexisted)]), name, luck);
      OnlyStage(root, dirs, Cleaned(preexisted), Raised(WriteFailed));
      if !preexisted && dirs == map[] && luck(Cleaned(preexisted)).Succeeds? {
        root := false;
      }
      assert whole == Finish(World(root, dirs, [Raised(WriteFailed)]), name, luck);
      return Some(WriteFailed);
    }

    method WriteFile(name: string, file: string, c: Content)
      requires name in dirs
      modifies this`dirs
      ensures name in dirs && dirs == Filed(old(dirs), name, file, c)
    {
      dirs := dirs[name := dirs[name].(entries := dirs[name].entries[file := RegularFile(c)])];
    }
  }
}
