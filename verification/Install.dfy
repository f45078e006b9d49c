/**
 Installing files (src/downloader/jobs/file_install.py, jobs/fetch_file_worker.py,
 jobs/open_zip_contents_worker.py). One file goes along a line of attempts: a download, or an
 extraction and then, if it came out wrong, a download. Writing and copying can stop half way with
 any content on disk; moving is one atomic replacement. Many lines run at once, and everything may
 stop after any step. A content is known by its hash, which is all that the code asks of it.
 */
module Install {
  import opened Prelude
  import opened IndexFiles

  const SUFFIX := "._downloader_in_progress"

  function Beside(p: Pkg): string { p.full + SUFFIX }

  /** A declared temporary path, or one beside the target when the caller says that the target exists. */
  function TempPath(p: Pkg, alreadyExists: bool): Option<string> {
    if p.tmp.Some? then p.tmp else if alreadyExists then Some(Beside(p)) else None
  }

  /** How the file is to come, what the archive has for it, and where it may be downloaded from after that. */
  datatype Way = Download(there: bool) | PerFile | Whole
  datatype Source = FromUrl | RefusedUrl | NoUrl

  /** One file, or everything else that a whole extraction writes. */
  datatype Line =
    | File(p: Pkg, way: Way, member: Option<string>, source: Source)
    | Rest(dump: Disk)
  {
    function Paths(): set<string> {
      if Rest? then dump.Keys
      else
        {p.full, Beside(p)} + (if p.tmp.Some? then {p.tmp.value} else {}) + (if p.backup.Some? then {p.backup.value} else {})
    }
  }

  /* ---- The steps ---- */

  datatype Stage = Start | CopyingFirst | Writing | Checking | CopyingLast | Moving | Done | Failed | GivenUp(rescue: bool)

  /**
   Where a line is: `recovering` is the download after an extraction, `there` says whether the attempt
   takes the target to exist, and `again` says that a finished extraction was started over.
   */
  datatype Spot = Spot(recovering: bool, there: bool, again: bool, stage: Stage)

  const Begin := Spot(false, false, false, Start)

  /** What a step does when there is a choice: leave `c` half written, finish, or fail. */
  datatype Turn = Half(c: string) | HalfAt(place: string, c: string) | Finish | Fail

  predicate Extracts(x: Line, s: Spot) { x.File? && !x.way.Download? && !s.recovering }

  function InstallPath(x: Line, s: Spot): string
    requires x.File?
  {
    var temp := TempPath(x.p, s.there);
    if (Extracts(x, s) && x.way.Whole?) || temp.None? then x.p.full else temp.value
  }

  /** Whether the attempt takes the target to exist: a download is told, an extraction one by one looks, the recovery never does. */
  function Takes(x: Line, d: Disk, s: Spot): bool
    requires x.File?
  {
    !s.recovering && if x.way.Download? then x.way.there else x.p.full in d
  }

  /** In place, the target is copied before it is written. */
  function StartStep(x: Line, d: Disk, s: Spot): Spot
    requires x.File?
  {
    var t := s.(there := Takes(x, d, s));
    var inPlace := TempPath(x.p, t.there).None? && !(Extracts(x, s) && x.way.Whole?);
    t.(stage := if inPlace && x.p.backup.Some? && x.p.full in d then CopyingFirst else Writing)
  }

  /** A copy over the backup path. */
  function CopyStep(p: Pkg, d: Disk, s: Spot, turn: Turn, next: Stage): (Disk, Spot) {
    if p.backup.None? || p.full !in d then (d, s.(stage := Failed))
    else
      match turn
      case Half(c) => (d[p.backup.value := c], s)
      case Finish => (d[p.backup.value := d[p.full]], s.(stage := next))
      case _ => (d, s.(stage := Failed))
  }

  /** An extraction writes what the archive has, if anything; a download writes what comes. */
  function WriteStep(x: Line, d: Disk, s: Spot, turn: Turn): (Disk, Spot)
    requires x.File?
  {
    var path := InstallPath(x, s);
    match turn
    case Half(c) => (if Extracts(x, s) && x.member.None? then d else d[path := c], s)
    case Finish => (if Extracts(x, s) && x.member.Some? then d[path := x.member.value] else d, s.(stage := Checking))
    case _ => (d, s.(stage := Failed))
  }

  /** What follows an extraction that came out wrong. */
  function AfterBad(x: Line, s: Spot, turn: Turn): Spot
    requires x.File?
  {
    if !Extracts(x, s) || turn.Fail? then s.(stage := Failed)
    else if x.source.FromUrl? then s.(recovering := true, stage := Start)
    else s.(stage := GivenUp(x.source.NoUrl?))
  }

  /** A wrong content is removed, unless it was extracted in place. */
  function CheckStep(x: Line, d: Disk, s: Spot, turn: Turn): (Disk, Spot)
    requires x.File?
  {
    var path := InstallPath(x, s);
    if Lookup(d, path) != Some(x.p.hash) then
      (if path in d && !turn.Half? && !(Extracts(x, s) && path == x.p.full) then d - {path} else d, AfterBad(x, s, turn))
    else if path == x.p.full then (d, s.(stage := Done))
    else (d, s.(stage := if x.p.backup.Some? && x.p.full in d then CopyingLast else Moving))
  }

  function MoveStep(x: Line, d: Disk, s: Spot, turn: Turn): (Disk, Spot)
    requires x.File?
  {
    var path := InstallPath(x, s);
    if turn.Finish? && path in d then (d[x.p.full := d[path]] - {path}, s.(stage := Done)) else (d, s.(stage := Failed))
  }

  /** The importer's last resort for a file that failed and is not on disk. */
  function Rescued(p: Pkg, d: Disk): Disk {
    if p.full in d || (p.backup.None? && p.tmp.None?) then d
    else if p.backup.Some? && p.backup.value in d then d[p.full := d[p.backup.value]] - {p.backup.value}
    else
      var temp := TempPath(p, true).value;
      if Lookup(d, temp) == Some(p.hash) then d[p.full := p.hash] - {temp} else d
  }

  /** A failure is tried again or given up; a finished extraction starts over when another file's failure restarts the worker. */
  function StepOf(x: Line, d: Disk, s: Spot, turn: Turn): (Disk, Spot) {
    if x.Rest? then RestStep(x.dump, d, s, turn)
    else
      match s.stage
      case Start => (d, StartStep(x, d, s))
      case CopyingFirst => CopyStep(x.p, d, s, turn, Writing)
      case Writing => WriteStep(x, d, s, turn)
      case Checking => CheckStep(x, d, s, turn)
      case CopyingLast => CopyStep(x.p, d, s, turn, Moving)
      case Moving => MoveStep(x, d, s, turn)
      case Done => (d, if turn.Fail? && Extracts(x, s) then s.(again := true, stage := Start) else s)
      case Failed =>
        (d, if turn.Finish? then s.(stage := Start)
            else if turn.Fail? then s.(stage := GivenUp(!Extracts(x, s) && s.there))
            else s)
      case GivenUp(rescue) => if rescue && turn.Finish? then (Rescued(x.p, d), s.(stage := GivenUp(false))) else (d, s)
  }

  function RestStep(dump: Disk, d: Disk, s: Spot, turn: Turn): (Disk, Spot) {
    match turn
    case HalfAt(place, c) => (if place in dump then d[place := c] else d, s)
    case Finish => (d + dump, s.(stage := Done))
    case _ => (d, s)
  }

  function RunLine(x: Line, d: Disk, s: Spot, turns: seq<Turn>): (Disk, Spot)
    decreases |turns|
  {
    if turns == [] then (d, s)
    else
      var r := StepOf(x, d, s, turns[0]);
      RunLine(x, r.0, r.1, turns[1..])
  }

  lemma {:induction false} RunLinePush(x: Line, d: Disk, s: Spot, turns: seq<Turn>, turn: Turn)
    ensures var r := RunLine(x, d, s, turns); RunLine(x, d, s, turns + [turn]) == StepOf(x, r.0, r.1, turn)
    decreases |turns|
  {
    if turns == [] {
      assert turns + [turn] == [turn] && [turn][1..] == [];
    } else {
      assert (turns + [turn])[1..] == turns[1..] + [turn];
      var r := StepOf(x, d, s, turns[0]);
      RunLinePush(x, r.0, r.1, turns[1..], turn);
    }
  }

  /* ---- Many lines ---- */

  datatype State = State(disk: Disk, spots: seq<Spot>)
  datatype Act = Act(i: nat, turn: Turn)

  function Step(lines: seq<Line>, s: State, a: Act): State
    requires |s.spots| == |lines| && a.i < |lines|
  {
    var r := StepOf(lines[a.i], s.disk, s.spots[a.i], a.turn);
    State(r.0, s.spots[a.i := r.1])
  }

  predicate Possible(lines: seq<Line>, run: seq<Act>) { forall k :: 0 <= k < |run| ==> run[k].i < |lines| }

  function Run(lines: seq<Line>, s: State, run: seq<Act>): (t: State)
    requires |s.spots| == |lines| && Possible(lines, run)
    ensures |t.spots| == |lines|
    decreases |run|
  {
    if run == [] then s
    else
      assert Possible(lines, run[1..]) by {
        assert forall k :: 0 <= k < |run[1..]| ==> run[1..][k] == run[k + 1];
      }
      Run(lines, Step(lines, s, run[0]), run[1..])
  }

  function AtStart(lines: seq<Line>, disk: Disk): State { State(disk, seq(|lines|, i => Begin)) }

  /** What is on disk when everything stops after the run. */
  function After(lines: seq<Line>, disk: Disk, run: seq<Act>): Disk
    requires Possible(lines, run)
  {
    Run(lines, AtStart(lines, disk), run).disk
  }

  /** The paths of one file are different. */
  ghost predicate OwnPathsDiffer(p: Pkg) {
    && p.tmp != Some(p.full) && p.tmp != Some(Beside(p)) && Beside(p) != p.full
    && p.backup != Some(p.full) && p.backup != Some(Beside(p)) && (p.backup.Some? ==> p.backup != p.tmp)
  }

  /** An attempt writes an existing target itself exactly in a whole extraction, and without a declared temporary path also when it is told that there is none. */
  lemma ExistingFileIsWrittenInPlaceIff(x: Line, d: Disk, s: Spot)
    requires x.File? && OwnPathsDiffer(x.p) && s.stage.Start? && x.p.full in d
    ensures InstallPath(x, StartStep(x, d, s)) == x.p.full <==>
              || (x.way.Whole? && !s.recovering)
              || (x.p.tmp.None? && (s.recovering || x.way == Download(false)))
  {
  }

  /** And no two lines share any. */
  ghost predicate LinesApart(lines: seq<Line>) {
    && (forall i :: 0 <= i < |lines| && lines[i].File? ==> OwnPathsDiffer(lines[i].p))
    && (forall i, k :: 0 <= i < k < |lines| ==> lines[i].Paths() !! lines[k].Paths())
  }

  ghost predicate SameOn(paths: set<string>, d: Disk, e: Disk) { forall f :: f in paths ==> Lookup(d, f) == Lookup(e, f) }

  lemma StepTouchesOwnPaths(x: Line, d: Disk, s: Spot, turn: Turn, f: string)
    requires f !in x.Paths()
    ensures Lookup(StepOf(x, d, s, turn).0, f) == Lookup(d, f)
  {
  }

  lemma PutSame(paths: set<string>, d: Disk, e: Disk, f: string, c: string)
    requires SameOn(paths, d, e)
    ensures SameOn(paths, d[f := c], e[f := c])
  {
  }

  lemma DropSame(paths: set<string>, d: Disk, e: Disk, f: string)
    requires SameOn(paths, d, e)
    ensures SameOn(paths, d - {f}, e - {f})
  {
  }

  lemma MoveSame(paths: set<string>, d: Disk, e: Disk, from: string, to: string)
    requires SameOn(paths, d, e) && from in paths && from in d
    ensures from in e && SameOn(paths, d[to := d[from]] - {from}, e[to := e[from]] - {from})
  {
    assert Lookup(d, from) == Lookup(e, from);
    PutSame(paths, d, e, to, d[from]);
    DropSame(paths, d[to := d[from]], e[to := e[from]], from);
  }

  lemma SameHere(paths: set<string>, d: Disk, e: Disk, f: string)
    requires SameOn(paths, d, e) && f in paths
    ensures Lookup(d, f) == Lookup(e, f) && (f in d <==> f in e)
  {
  }

  ghost predicate SameStep(x: Line, r: (Disk, Spot), q: (Disk, Spot)) { r.1 == q.1 && SameOn(x.Paths(), r.0, q.0) }

  lemma CopyIsLocal(x: Line, d: Disk, e: Disk, s: Spot, turn: Turn, next: Stage)
    requires x.File? && SameOn(x.Paths(), d, e)
    ensures SameStep(x, CopyStep(x.p, d, s, turn, next), CopyStep(x.p, e, s, turn, next))
  {
    SameHere(x.Paths(), d, e, x.p.full);
    if x.p.backup.Some? && x.p.full in d {
      PutSame(x.Paths(), d, e, x.p.backup.value, d[x.p.full]);
      if turn.Half? {
        PutSame(x.Paths(), d, e, x.p.backup.value, turn.c);
      }
    }
  }

  lemma WriteIsLocal(x: Line, d: Disk, e: Disk, s: Spot, turn: Turn)
    requires x.File? && SameOn(x.Paths(), d, e)
    ensures SameStep(x, WriteStep(x, d, s, turn), WriteStep(x, e, s, turn))
  {
    if turn.Half? {
      PutSame(x.Paths(), d, e, InstallPath(x, s), turn.c);
    } else if x.member.Some? {
      PutSame(x.Paths(), d, e, InstallPath(x, s), x.member.value);
    }
  }

  lemma CheckIsLocal(x: Line, d: Disk, e: Disk, s: Spot, turn: Turn)
    requires x.File? && SameOn(x.Paths(), d, e)
    ensures SameStep(x, CheckStep(x, d, s, turn), CheckStep(x, e, s, turn))
  {
    SameHere(x.Paths(), d, e, x.p.full);
    SameHere(x.Paths(), d, e, InstallPath(x, s));
    DropSame(x.Paths(), d, e, InstallPath(x, s));
  }

  lemma MoveIsLocal(x: Line, d: Disk, e: Disk, s: Spot, turn: Turn)
    requires x.File? && SameOn(x.Paths(), d, e)
    ensures SameStep(x, MoveStep(x, d, s, turn), MoveStep(x, e, s, turn))
  {
    SameHere(x.Paths(), d, e, InstallPath(x, s));
    if InstallPath(x, s) in d {
      MoveSame(x.Paths(), d, e, InstallPath(x, s), x.p.full);
    }
  }

  lemma RescueIsLocal(x: Line, d: Disk, e: Disk)
    requires x.File? && SameOn(x.Paths(), d, e)
    ensures SameOn(x.Paths(), Rescued(x.p, d), Rescued(x.p, e))
  {
    var p, temp := x.p, TempPath(x.p, true).value;
    SameHere(x.Paths(), d, e, p.full);
    SameHere(x.Paths(), d, e, temp);
    if p.backup.Some? {
      SameHere(x.Paths(), d, e, p.backup.value);
      if p.backup.value in d {
        MoveSame(x.Paths(), d, e, p.backup.value, p.full);
      }
    }
    if temp in d {
      MoveSame(x.Paths(), d, e, temp, p.full);
    }
  }

  /** What a line does depends on its own paths only. */
  lemma StepIsLocal(x: Line, d: Disk, e: Disk, s: Spot, turn: Turn)
    requires SameOn(x.Paths(), d, e)
    ensures SameStep(x, StepOf(x, d, s, turn), StepOf(x, e, s, turn))
  {
    if x.File? {
      SameHere(x.Paths(), d, e, x.p.full);
      match s.stage
      case CopyingFirst => CopyIsLocal(x, d, e, s, turn, Writing);
      case Writing => WriteIsLocal(x, d, e, s, turn);
      case Checking => CheckIsLocal(x, d, e, s, turn);
      case CopyingLast => CopyIsLocal(x, d, e, s, turn, Moving);
      case Moving => MoveIsLocal(x, d, e, s, turn);
      case GivenUp(_) => RescueIsLocal(x, d, e);
      case _ =>
    }
  }

  /** The turns of one line in a run. */
  function Own(run: seq<Act>, i: nat): seq<Turn> {
    if run == [] then [] else (if run[0].i == i then [run[0].turn] else []) + Own(run[1..], i)
  }

  function Acts(i: nat, turns: seq<Turn>): seq<Act> { seq(|turns|, k requires 0 <= k < |turns| => Act(i, turns[k])) }

  lemma {:induction false} OwnOfActs(i: nat, turns: seq<Turn>)
    ensures Own(Acts(i, turns), i) == turns
    decreases |turns|
  {
    if turns != [] {
      assert Acts(i, turns)[1..] == Acts(i, turns[1..]);
      OwnOfActs(i, turns[1..]);
    }
  }

  lemma OtherStepKeeps(lines: seq<Line>, s: State, a: Act, i: nat)
    requires LinesApart(lines) && |s.spots| == |lines| && i < |lines| && a.i < |lines| && a.i != i
    ensures SameOn(lines[i].Paths(), Step(lines, s, a).disk, s.disk)
  {
    assert lines[i].Paths() !! lines[a.i].Paths();
    forall f | f in lines[i].Paths()
      ensures Lookup(Step(lines, s, a).disk, f) == Lookup(s.disk, f)
    {
      StepTouchesOwnPaths(lines[a.i], s.disk, s.spots[a.i], a.turn, f);
    }
  }

  lemma OwnTurnFirst(x: Line, d: Disk, s: Spot, run: seq<Act>, i: nat)
    requires run != []
    ensures RunLine(x, d, s, Own(run, i)) ==
            if run[0].i == i then var q := StepOf(x, d, s, run[0].turn); RunLine(x, q.0, q.1, Own(run[1..], i))
            else RunLine(x, d, s, Own(run[1..], i))
  {
    if run[0].i == i {
      assert Own(run, i)[1..] == Own(run[1..], i);
    } else {
      assert Own(run, i) == Own(run[1..], i);
    }
  }

  /** Whatever the others do in between, a line runs as if it were alone, on its own paths. */
  lemma {:induction false} RunsAsIfAlone(lines: seq<Line>, s: State, run: seq<Act>, i: nat, d: Disk)
    requires LinesApart(lines) && |s.spots| == |lines| && Possible(lines, run) && i < |lines|
    requires SameOn(lines[i].Paths(), s.disk, d)
    ensures var t, r := Run(lines, s, run), RunLine(lines[i], d, s.spots[i], Own(run, i));
            t.spots[i] == r.1 && SameOn(lines[i].Paths(), t.disk, r.0)
    decreases |run|
  {
    if run != [] {
      var a, x := run[0], lines[i];
      var t := Step(lines, s, a);
      assert forall k :: 0 <= k < |run[1..]| ==> run[1..][k] == run[k + 1];
      OwnTurnFirst(x, d, s.spots[i], run, i);
      if a.i == i {
        StepIsLocal(x, s.disk, d, s.spots[i], a.turn);
        var q := StepOf(x, d, s.spots[i], a.turn);
        RunsAsIfAlone(lines, t, run[1..], i, q.0);
      } else {
        OtherStepKeeps(lines, s, a, i);
        RunsAsIfAlone(lines, t, run[1..], i, d);
      }
    }
  }

  /** A file of no line stays as it is. */
  lemma {:induction false} OthersStay(lines: seq<Line>, s: State, run: seq<Act>, f: string)
    requires |s.spots| == |lines| && Possible(lines, run)
    requires forall i :: 0 <= i < |lines| ==> f !in lines[i].Paths()
    ensures Lookup(Run(lines, s, run).disk, f) == Lookup(s.disk, f)
    decreases |run|
  {
    if run != [] {
      var a := run[0];
      StepTouchesOwnPaths(lines[a.i], s.disk, s.spots[a.i], a.turn, f);
      assert forall k :: 0 <= k < |run[1..]| ==> run[1..][k] == run[k + 1];
      OthersStay(lines, Step(lines, s, a), run[1..], f);
    }
  }

  /** What one line can do alone, it can do among the others. */
  lemma AloneIsPossible(lines: seq<Line>, disk: Disk, i: nat, turns: seq<Turn>)
    requires LinesApart(lines) && i < |lines|
    ensures var run, r := Acts(i, turns), RunLine(lines[i], disk, Begin, turns);
            Possible(lines, run) && SameOn(lines[i].Paths(), After(lines, disk, run), r.0)
  {
    var run := Acts(i, turns);
    assert Possible(lines, run);
    OwnOfActs(i, turns);
    RunsAsIfAlone(lines, AtStart(lines, disk), run, i, disk);
  }

  /* ---- The worker ---- */

  class FileSystem {
    var disk: Disk

    method Copy(from: string, to: string)
      requires from in disk
      modifies this
      ensures disk == old(disk)[to := old(disk)[from]]
    {
      disk := disk[to := disk[from]];
    }

    method Move(from: string, to: string)
      requires from in disk
      modifies this
      ensures disk == old(disk)[to := old(disk)[from]] - {from}
    {
      disk := disk[to := disk[from]] - {from};
    }

    /** A download: some content, complete or not, may be on disk afterwards. */
    method WriteIncomingStream(c: string, wrote: bool, to: string)
      modifies this
      ensures disk == if wrote then old(disk)[to := c] else old(disk)
    {
      if wrote {
        disk := disk[to := c];
      }
    }

    method Unlink(path: string)
      modifies this
      ensures disk == old(disk) - {path}
    {
      disk := disk - {path};
    }

    method PrepareFileInstall(p: Pkg, alreadyExists: bool) returns (installPath: string, temp: Option<string>, backup: Option<string>)
      modifies this
      ensures temp == TempPath(p, alreadyExists) && backup == p.backup
      ensures installPath == if temp.Some? then temp.value else p.full
      ensures disk == if temp.None? && backup.Some? && p.full in old(disk) then old(disk)[backup.value := old(disk)[p.full]] else old(disk)
    {
      temp, backup := TempPath(p, alreadyExists), p.backup;
      if temp.None? && backup.Some? && p.full in disk {
        Copy(p.full, backup.value);
      }
      installPath := if temp.Some? then temp.value else p.full;
    }

    method FinalizeFileInstall(installPath: string, target: string, backup: Option<string>)
      requires installPath in disk
      modifies this
      ensures disk == Finalized(old(disk), installPath, target, backup)
    {
      if installPath == target {
        return;
      }
      if backup.Some? && target in disk {
        Copy(target, backup.value);
      }
      Move(installPath, target);
    }
  }

  function Finalized(d: Disk, installPath: string, target: string, backup: Option<string>): Disk
    requires installPath in d
  {
    if installPath == target then d
    else
      var b := if backup.Some? && target in d then d[backup.value := d[target]] else d;
      b[target := b[installPath]] - {installPath}
  }

  function DownloadLine(p: Pkg, alreadyExists: bool): Line { File(p, Download(alreadyExists), None, FromUrl) }

  /** The line's run from its start leads to this disk and stage. */
  ghost predicate Reached(x: Line, first: Disk, run: seq<Turn>, d: Disk, stage: Stage)
    requires x.File? && x.way.Download?
  {
    RunLine(x, first, Begin, run) == (d, Spot(false, x.way.there, false, stage))
  }

  lemma Advance(x: Line, first: Disk, run: seq<Turn>, d: Disk, stage: Stage, turn: Turn) returns (later: seq<Turn>)
    requires x.File? && x.way.Download? && Reached(x, first, run, d, stage)
    ensures var r := StepOf(x, d, Spot(false, x.way.there, false, stage), turn); RunLine(x, first, Begin, later) == r
  {
    later := run + [turn];
    RunLinePush(x, first, Begin, run, turn);
  }

  predicate AsDownload(r: (Disk, Spot), q: (Disk, Spot)) { r.0 == q.0 && r.1 == q.1.(recovering := r.1.recovering) }

  lemma CheckAsDownload(x: Line, d: Disk, s: Spot, turn: Turn)
    requires x.File? && s.recovering
    ensures AsDownload(CheckStep(x, d, s, turn), CheckStep(DownloadLine(x.p, false), d, s.(recovering := false), turn))
  {
    assert InstallPath(x, s) == InstallPath(DownloadLine(x.p, false), s.(recovering := false));
  }

  lemma WriteAsDownload(x: Line, d: Disk, s: Spot, turn: Turn)
    requires x.File? && s.recovering
    ensures AsDownload(WriteStep(x, d, s, turn), WriteStep(DownloadLine(x.p, false), d, s.(recovering := false), turn))
    ensures AsDownload(MoveStep(x, d, s, turn), MoveStep(DownloadLine(x.p, false), d, s.(recovering := false), turn))
  {
    assert InstallPath(x, s) == InstallPath(DownloadLine(x.p, false), s.(recovering := false));
  }

  lemma CopyAsDownload(p: Pkg, d: Disk, s: Spot, turn: Turn, next: Stage)
    ensures AsDownload(CopyStep(p, d, s, turn, next), CopyStep(p, d, s.(recovering := false), turn, next))
  {
  }

  /** The download after an extraction is one that takes the target not to exist. */
  lemma RecoveryIsADownload(x: Line, d: Disk, s: Spot, turn: Turn)
    requires x.File? && s.recovering
    ensures AsDownload(StepOf(x, d, s, turn), StepOf(DownloadLine(x.p, false), d, s.(recovering := false), turn))
  {
    match s.stage
    case Checking => CheckAsDownload(x, d, s, turn);
    case Writing => WriteAsDownload(x, d, s, turn);
    case Moving => WriteAsDownload(x, d, s, turn);
    case CopyingFirst => CopyAsDownload(x.p, d, s, turn, Writing);
    case CopyingLast => CopyAsDownload(x.p, d, s, turn, Moving);
    case _ =>
  }

  /** Where a download is written: the temporary path, if there is one, or else the target. */
  function PlaceOfDownload(p: Pkg, alreadyExists: bool): string {
    if p.tmp.Some? then p.tmp.value else if alreadyExists then p.full + SUFFIX else p.full
  }

  class FetchFileWorker {
    const fileSystem: FileSystem

    constructor (fs: FileSystem)
      ensures fileSystem == fs
    {
      fileSystem := fs;
    }

    /**
     What the worker does, step by step, is a run of the file's line, for any answer of the network.
     It succeeds exactly when the transfer gave no error and left the declared content. Then the
     target has it, its old content is in its backup, and the temporary path is gone. If not, the
     target is as it was unless it was written itself, a wrong content is removed, and what came
     before an error is left.
     */
    method OperateOn(p: Pkg, alreadyExists: bool, c: string, wrote: bool, error: bool) returns (ok: bool, ghost run: seq<Turn>)
      modifies fileSystem
      ensures OwnPathsDiffer(p) ==>
              var was, disk, place := old(fileSystem.disk), fileSystem.disk, PlaceOfDownload(p, alreadyExists);
              var got := if wrote then Some(c) else Lookup(was, place);
              && (ok <==> !error && got == Some(p.hash))
              && (ok ==> Lookup(disk, p.full) == Some(p.hash))
              && (ok && p.backup.Some? && p.full in was ==> Lookup(disk, p.backup.value) == Some(was[p.full]))
              && (ok && place != p.full ==> place !in disk)
              && (!ok && place != p.full ==> Lookup(disk, p.full) == Lookup(was, p.full))
              && (!ok && !error ==> place !in disk)
              && (!ok && error ==> Lookup(disk, place) == got)
              && (forall f :: f != p.full && f != place && Some(f) != p.backup ==> Lookup(disk, f) == Lookup(was, f))
      ensures Reached(DownloadLine(p, alreadyExists), old(fileSystem.disk), run, fileSystem.disk, if ok then Done else Failed)
    {
      ghost var x, first := DownloadLine(p, alreadyExists), fileSystem.disk;
      var installPath, temp, backup := fileSystem.PrepareFileInstall(p, alreadyExists);
      run := [Finish];
      assert run[1..] == [];
      assert RunLine(x, first, Begin, run) == StepOf(x, first, Begin, Finish);
      if StartStep(x, first, Begin).stage.CopyingFirst? {
        run := Advance(x, first, run, first, CopyingFirst, Finish);
      }
      ghost var prepared := fileSystem.disk;
      fileSystem.WriteIncomingStream(c, wrote, installPath);
      if wrote {
        run := Advance(x, first, run, prepared, Writing, Half(c));
      }
      if error {
        run := Advance(x, first, run, fileSystem.disk, Writing, Fail);
        return false, run;
      }
      run := Advance(x, first, run, fileSystem.disk, Writing, Finish);
      ok, run := Validate(p, alreadyExists, installPath, backup, first, run);
    }

    /** From the hash check on. */
    method Validate(p: Pkg, alreadyExists: bool, installPath: string, backup: Option<string>, ghost first: Disk, ghost before: seq<Turn>)
      returns (ok: bool, ghost run: seq<Turn>)
      requires installPath == (if TempPath(p, alreadyExists).Some? then TempPath(p, alreadyExists).value else p.full) && backup == p.backup
      requires Reached(DownloadLine(p, alreadyExists), first, before, fileSystem.disk, Checking)
      modifies fileSystem
      ensures OwnPathsDiffer(p) ==>
              var was, disk := old(fileSystem.disk), fileSystem.disk;
              && (ok <==> Lookup(was, installPath) == Some(p.hash))
              && (ok ==> Lookup(disk, p.full) == Some(p.hash))
              && (ok && installPath != p.full ==> installPath !in disk)
              && (ok && installPath != p.full && p.backup.Some? && p.full in was ==> Lookup(disk, p.backup.value) == Some(was[p.full]))
              && (!ok || installPath == p.full ==> forall f :: f != installPath ==> Lookup(disk, f) == Lookup(was, f))
              && (!ok ==> installPath !in disk)
              && (forall f :: f != p.full && f != installPath && Some(f) != p.backup ==> Lookup(disk, f) == Lookup(was, f))
      ensures Reached(DownloadLine(p, alreadyExists), first, run, fileSystem.disk, if ok then Done else Failed)
    {
      ghost var x, checked := DownloadLine(p, alreadyExists), fileSystem.disk;
      run := Advance(x, first, before, checked, Checking, Finish);
      if installPath !in fileSystem.disk {
        return false, run;
      }
      if fileSystem.disk[installPath] != p.hash {
        fileSystem.Unlink(installPath);
        return false, run;
      }
      fileSystem.FinalizeFileInstall(installPath, p.full, backup);
      ok := true;
      if installPath != p.full {
        ghost var copied := checked;
        if backup.Some? && p.full in checked {
          run := Advance(x, first, run, checked, CopyingLast, Finish);
          copied := checked[backup.value := checked[p.full]];
        }
        run := Advance(x, first, run, copied, Moving, Finish);
      }
    }
  }
}
