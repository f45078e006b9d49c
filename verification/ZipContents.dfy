/**
 How the files of a zip get to disk (src/downloader/jobs/process_zip_index_worker.py and
 open_zip_contents_worker.py): downloaded one by one, taken out of the archive one by one, or all
 at once with everything else that the archive holds; and which files on disk that can change.
 */
module ZipContents {
  import opened Prelude
  import opened Store
  import opened IndexFiles
  import opened Install
  import opened InstallSafety

  /** `kept` counts the files that the filter left in the zip's index. */
  datatype Archive = Archive(kind: Option<string>, kept: nat)

  datatype Config = Config(fileCountThreshold: int, accumulatedMbThreshold: int)

  const EXTRACT_ALL := "extract_all_contents"
  const EXTRACT_SINGLE := "extract_single_files"

  /** What happens to the files that are to be installed; a download is told which of them exist. */
  datatype Next = Nothing | Fetch(files: seq<Pkg>, update: seq<Pkg>) | Unzip(files: seq<Pkg>) | ExtractAll(files: seq<Pkg>)

  function SizeOf(): Pkg -> nat { (p: Pkg) => p.size }

  /** Few and small files are downloaded without the archive. */
  predicate Small(plan: Plan, zip: Archive, config: Config, size: nat) {
    zip.kind != Some(EXTRACT_SINGLE) && zip.kept < config.fileCountThreshold && size < 1000 * 1000 * config.accumulatedMbThreshold
  }

  /** More than seven tenths of the files that the index still has. */
  predicate ShouldExtractAll(zip: Archive, files: seq<Pkg>) { zip.kind == Some(EXTRACT_ALL) && 10 * |files| > 7 * zip.kept }

  /** `opens` says that the declared files and the target folder are in order. */
  ghost predicate Decides(plan: Plan, zip: Archive, config: Config, opens: bool, next: Next) {
    var files := ToInstall(plan);
    var small := Small(plan, zip, config, Sum(files, SizeOf()));
    var archive := plan.go && !small && files != [] && opens && zip.kind in {Some(EXTRACT_ALL), Some(EXTRACT_SINGLE)};
    && (next.Fetch? <==> plan.go && small)
    && (next.ExtractAll? <==> archive && ShouldExtractAll(zip, files))
    && (next.Unzip? <==> archive && !ShouldExtractAll(zip, files))
    && (!next.Nothing? ==> next.files == files) && (next.Fetch? ==> next.update == plan.update)
  }

  method TotalSize(files: seq<Pkg>) returns (size: nat)
    ensures size == Sum(files, SizeOf())
  {
    size := 0;
    for i := 0 to |files|
      invariant size == Sum(files[..i], SizeOf())
    {
      assert files[..i + 1] == files[..i] + [files[i]];
      SumPush(files[..i], files[i], SizeOf());
      size := size + files[i].size;
    }
    assert files[..|files|] == files;
  }

  method NextJobs(plan: Plan, zip: Archive, config: Config, opens: bool) returns (next: Next)
    ensures Decides(plan, zip, config, opens, next)
    ensures var files := plan.missing + plan.update;
            var few := zip.kept < config.fileCountThreshold && Sum(files, SizeOf()) < 1_000_000 * config.accumulatedMbThreshold;
            var single, all, most := zip.kind == Some("extract_single_files"), zip.kind == Some("extract_all_contents"), 10 * |files| > 7 * zip.kept;
            && (next.Fetch? <==> plan.go && few && !single)
            && (next.ExtractAll? <==> plan.go && !few && opens && files != [] && all && most)
            && (next.Unzip? <==> plan.go && opens && files != [] && (single || (!few && all && !most)))
            && (!next.Nothing? ==> next.files == files) && (next.Fetch? ==> next.update == plan.update)
  {
    if !plan.go {
      return Nothing;
    }
    var ofMissing := TotalSize(plan.missing);
    var ofUpdate := TotalSize(plan.update);
    var size := ofMissing + ofUpdate;
    SumAppend(plan.missing, plan.update, SizeOf());
    var files := plan.missing + plan.update;
    if Small(plan, zip, config, size) {
      next := Fetch(files, plan.update);
    } else if |files| == 0 || !opens || zip.kind !in {Some(EXTRACT_ALL), Some(EXTRACT_SINGLE)} {
      next := Nothing;
    } else if ShouldExtractAll(zip, files) {
      next := ExtractAll(files);
    } else {
      next := Unzip(files);
    }
  }

  /* ---- The archive ---- */

  /** A file of the archive, and the hash of its content. */
  datatype Member = Member(name: string, hash: string)

  function Place(target: string, name: string): string { target + "/" + name }

  /** What a whole extraction writes: every member, a later one over an earlier one. */
  function Dump(target: string, members: seq<Member>): Disk {
    if members == [] then map[]
    else
      var last := members[|members| - 1];
      Dump(target, members[..|members| - 1])[Place(target, last.name) := last.hash]
  }

  /** The content under a name: that of its last occurrence. */
  function ContentOf(members: seq<Member>, name: string): Option<string> {
    if members == [] then None
    else
      var last := members[|members| - 1];
      if last.name == name then Some(last.hash) else ContentOf(members[..|members| - 1], name)
  }

  /** The package that gets the member of this name: the last one that asks for it. */
  function Taker(files: seq<Pkg>, name: string): Option<Pkg> {
    if files == [] then None
    else
      var last := files[|files| - 1];
      if last.member == name then Some(last) else Taker(files[..|files| - 1], name)
  }

  /** What the archive has for the package. */
  function Staged(files: seq<Pkg>, members: seq<Member>, p: Pkg): Option<string> {
    if Taker(files, p.member) == Some(p) then ContentOf(members, p.member) else None
  }

  /* ---- The lines ---- */

  /** What a whole extraction writes besides the files that are asked for. */
  function RestOf(target: string, members: seq<Member>, files: seq<Pkg>): Disk {
    var dump := Dump(target, members);
    map f | f in dump && forall p :: p in files ==> p.full != f :: dump[f]
  }

  /** How one file comes; `from` tells where it can be downloaded from. */
  function LineOf(next: Next, target: string, members: seq<Member>, from: Pkg -> Source, p: Pkg): (x: Line)
    ensures x.File? && x.p == p
  {
    match next
    case Unzip(files) => File(p, PerFile, Staged(files, members, p), from(p))
    case ExtractAll(_) => File(p, Whole, Lookup(Dump(target, members), p.full), from(p))
    case Fetch(_, update) => File(p, Download(p in update), None, FromUrl)
    case Nothing => DownloadLine(p, false)
  }

  /** A download needs a valid source. */
  function Launched(next: Next, from: Pkg -> Source): seq<Pkg> {
    match next
    case Nothing => []
    case Fetch(files, _) => Keep(files, p => from(p).FromUrl?)
    case _ => next.files
  }

  function FileLines(next: Next, target: string, members: seq<Member>, from: Pkg -> Source): seq<Line> {
    var files := Launched(next, from);
    seq(|files|, i requires 0 <= i < |files| => LineOf(next, target, members, from, files[i]))
  }

  function LinesOf(next: Next, target: string, members: seq<Member>, from: Pkg -> Source): seq<Line> {
    FileLines(next, target, members, from) + if next.ExtractAll? then [Rest(RestOf(target, members, next.files))] else []
  }

  lemma LineIsThere(next: Next, target: string, members: seq<Member>, from: Pkg -> Source, p: Pkg)
    requires p in Launched(next, from)
    ensures LineOf(next, target, members, from, p) in LinesOf(next, target, members, from)
  {
    var files := Launched(next, from);
    var i :| 0 <= i < |files| && files[i] == p;
    assert FileLines(next, target, members, from)[i] == LineOf(next, target, members, from, p);
  }

  lemma FileLineIsLaunched(next: Next, target: string, members: seq<Member>, from: Pkg -> Source, x: Line)
    requires x in LinesOf(next, target, members, from) && x.File?
    ensures x.p in Launched(next, from) && x == LineOf(next, target, members, from, x.p)
  {
    var lines, files := LinesOf(next, target, members, from), Launched(next, from);
    var i :| 0 <= i < |lines| && lines[i] == x;
    assert i < |files| && x.p == files[i];
  }

  /* ---- The worker ---- */

  /** Extracting one by one into the given places. */
  function Unzipped(d: Disk, places: map<string, string>, members: seq<Member>): Disk {
    if members == [] then d
    else
      var last, before := members[|members| - 1], Unzipped(d, places, members[..|members| - 1]);
      if last.name in places then before[places[last.name] := last.hash] else before
  }

  lemma {:induction false} UnzippedHas(d: Disk, places: map<string, string>, members: seq<Member>, f: string)
    requires forall n, m :: n in places && m in places && places[n] == places[m] ==> n == m
    ensures forall n :: n in places && places[n] == f ==>
              Lookup(Unzipped(d, places, members), f) == if ContentOf(members, n).Some? then ContentOf(members, n) else Lookup(d, f)
    ensures f !in places.Values ==> Lookup(Unzipped(d, places, members), f) == Lookup(d, f)
  {
    if members != [] {
      UnzippedHas(d, places, members[..|members| - 1], f);
    }
  }

  lemma {:induction false} TakerTakes(files: seq<Pkg>, name: string)
    ensures Taker(files, name).Some? ==> Taker(files, name).value in files && Taker(files, name).value.member == name
    ensures Taker(files, name).None? ==> forall p :: p in files ==> p.member != name
  {
    if files != [] {
      TakerTakes(files[..|files| - 1], name);
      assert files == files[..|files| - 1] + [files[|files| - 1]];
    }
  }

  /** Where a file is extracted to. */
  function PlaceOf(x: Line, first: Disk): string
    requires x.File?
  {
    InstallPath(x, StartStep(x, first, Begin))
  }

  function Filled(x: Line, first: Disk): Disk
    requires x.File?
  {
    if x.member.Some? then first[PlaceOf(x, first) := x.member.value] else first
  }

  /** What the worker leaves of one extracted file. */
  function Validated(d: Disk, p: Pkg, place: string): Disk {
    if place !in d then d
    else if d[place] == p.hash then Finalized(d, place, p.full, p.backup)
    else if place != p.full then d - {place} else d
  }

  /** The state of a line after its extraction and the look at what came out. */
  function Looked(x: Line, first: Disk): Spot
    requires x.File?
  {
    var good := Holds(x.p, Filled(x, first), PlaceOf(x, first));
    Spot(
      !good && x.source.FromUrl?, x.p.full in first, false,
      if good then Done else if x.source.FromUrl? then Start else GivenUp(x.source.NoUrl?))
  }

  /** A line's extraction when nothing stops it, up to the recovery or the end. */
  function Extraction(x: Line, first: Disk): (Disk, Spot)
    requires x.File?
  {
    (Validated(Filled(x, first), x.p, PlaceOf(x, first)), Looked(x, first))
  }

  /**
   What an extraction that nothing stops leaves of a file. With the declared content in its place
   the file is installed, its old content is in its backup and its temporary path is gone.
   Otherwise the target is as it was, or has what the archive had for it if that was written in
   place; a bad temporary file is gone; and the file is downloaded if it can be, and reported
   failed if it has no source.
   */
  lemma ExtractionOutcome(x: Line, first: Disk)
    requires x.File? && !x.way.Download? && OwnPathsDiffer(x.p)
    ensures var p, r := x.p, Extraction(x, first);
            var place := if x.way.Whole? then p.full else PlaceOfDownload(p, p.full in first);
            var got := if x.member.Some? then x.member else Lookup(first, place);
            && (got == Some(p.hash) ==>
                  && Lookup(r.0, p.full) == Some(p.hash) && r.1.stage == Done
                  && (place != p.full ==> place !in r.0)
                  && (place != p.full && p.backup.Some? && p.full in first ==> Lookup(r.0, p.backup.value) == Some(first[p.full])))
            && (got != Some(p.hash) ==>
                  && Lookup(r.0, p.full) == (if place == p.full then got else Lookup(first, p.full))
                  && (place != p.full ==> place !in r.0) && (p.backup.Some? ==> Kept(first, r.0, p.backup.value))
                  && (r.1.recovering <==> x.source.FromUrl?) && (r.1.stage == GivenUp(true) <==> x.source.NoUrl?))
  {
  }

  lemma FillingIsARun(x: Line, first: Disk) returns (s: Spot)
    requires x.File? && !x.way.Download? && OwnPathsDiffer(x.p)
    ensures Reaches(x, first, Filled(x, first), s)
    ensures s == Spot(false, x.p.full in first, false, Checking) && InstallPath(x, s) == PlaceOf(x, first)
  {
    Begins(x, first);
    var e;
    e, s := TakesTurn(x, first, first, Begin, Finish);
    assert e == first && s == Spot(false, x.p.full in first, false, Writing);
    e, s := TakesTurn(x, first, e, s, Finish);
  }

  lemma ExtractionIsARun(x: Line, first: Disk)
    requires x.File? && !x.way.Download? && OwnPathsDiffer(x.p)
    ensures Reaches(x, first, Extraction(x, first).0, Extraction(x, first).1)
  {
    var s := FillingIsARun(x, first);
    var e := Filled(x, first);
    e, s := TakesTurn(x, first, e, s, Finish);
    if s.stage.CopyingLast? {
      e, s := TakesTurn(x, first, e, s, Finish);
    }
    if s.stage.Moving? {
      e, s := TakesTurn(x, first, e, s, Finish);
    }
  }

  lemma ValidatedIsLocal(x: Line, d: Disk, e: Disk, place: string)
    requires x.File? && SameOn(x.Paths(), d, e) && place in x.Paths()
    ensures SameOn(x.Paths(), Validated(d, x.p, place), Validated(e, x.p, place))
    ensures forall f :: f !in x.Paths() ==> Lookup(Validated(d, x.p, place), f) == Lookup(d, f)
  {
    var p := x.p;
    SameHere(x.Paths(), d, e, place);
    SameHere(x.Paths(), d, e, p.full);
    DropSame(x.Paths(), d, e, place);
    if place in d && place != p.full {
      if p.backup.Some? && p.full in d {
        PutSame(x.Paths(), d, e, p.backup.value, d[p.full]);
        MoveSame(x.Paths(), d[p.backup.value := d[p.full]], e[p.backup.value := d[p.full]], place, p.full);
      } else {
        MoveSame(x.Paths(), d, e, place, p.full);
      }
    }
  }

  lemma LinesAreApart(lines: seq<Line>)
    requires LinesApart(lines)
    ensures forall x, y :: x in lines && y in lines && x != y ==> x.Paths() !! y.Paths()
  {
    forall x, y | x in lines && y in lines && x != y
      ensures x.Paths() !! y.Paths()
    {
      var i :| 0 <= i < |lines| && lines[i] == x;
      var k :| 0 <= k < |lines| && lines[k] == y;
      assert i < k || k < i;
    }
  }

  ghost predicate OutsideSame(lines: seq<Line>, d: Disk, e: Disk) {
    forall f :: (forall x :: x in lines ==> f !in x.Paths()) ==> Lookup(d, f) == Lookup(e, f)
  }

  /** The archive's contents are where the lines want them. */
  ghost predicate Unpacked(lines: seq<Line>, first: Disk, d: Disk) {
    && (forall x :: x in lines ==> SameOn(x.Paths(), d, if x.File? then Filled(x, first) else first + x.dump))
    && OutsideSame(lines, d, first)
  }

  /** Every name that is asked for goes to the place of its line. */
  ghost predicate Placed(files: seq<Pkg>, target: string, members: seq<Member>, from: Pkg -> Source, first: Disk, places: map<string, string>) {
    && (forall n :: n in places <==> Taker(files, n).Some?)
    && (forall n :: n in places ==> places[n] == PlaceOf(LineOf(Unzip(files), target, members, from, Taker(files, n).value), first))
  }

  lemma PlaceHasALine(files: seq<Pkg>, target: string, members: seq<Member>, from: Pkg -> Source, first: Disk, places: map<string, string>, n: string)
    requires Placed(files, target, members, from, first, places) && n in places
    ensures var x := LineOf(Unzip(files), target, members, from, Taker(files, n).value);
            && x in LinesOf(Unzip(files), target, members, from) && x.p.member == n
            && places[n] == PlaceOf(x, first) && places[n] in x.Paths()
  {
    TakerTakes(files, n);
    LineIsThere(Unzip(files), target, members, from, Taker(files, n).value);
  }

  lemma PlacesDiffer(files: seq<Pkg>, target: string, members: seq<Member>, from: Pkg -> Source, first: Disk, places: map<string, string>)
    requires LinesApart(LinesOf(Unzip(files), target, members, from)) && Placed(files, target, members, from, first, places)
    ensures forall n, m :: n in places && m in places && places[n] == places[m] ==> n == m
  {
    LinesAreApart(LinesOf(Unzip(files), target, members, from));
    forall n, m | n in places && m in places && places[n] == places[m]
      ensures n == m
    {
      PlaceHasALine(files, target, members, from, first, places, n);
      PlaceHasALine(files, target, members, from, first, places, m);
    }
  }

  lemma UnzippedOnLine(files: seq<Pkg>, target: string, members: seq<Member>, from: Pkg -> Source, first: Disk, places: map<string, string>, x: Line, f: string)
    requires LinesApart(LinesOf(Unzip(files), target, members, from)) && Placed(files, target, members, from, first, places)
    requires x in LinesOf(Unzip(files), target, members, from) && f in x.Paths()
    ensures x.File? && Lookup(Unzipped(first, places, members), f) == Lookup(Filled(x, first), f)
  {
    FileLineIsLaunched(Unzip(files), target, members, from, x);
    PlacesDiffer(files, target, members, from, first, places);
    UnzippedHas(first, places, members, f);
    LinesAreApart(LinesOf(Unzip(files), target, members, from));
    if n :| n in places && places[n] == f {
      PlaceHasALine(files, target, members, from, first, places, n);
    } else if f == PlaceOf(x, first) {
      assert Taker(files, x.p.member) != Some(x.p);
    }
  }

  lemma UnzippedIsUnpacked(files: seq<Pkg>, target: string, members: seq<Member>, from: Pkg -> Source, first: Disk, places: map<string, string>)
    requires LinesApart(LinesOf(Unzip(files), target, members, from)) && Placed(files, target, members, from, first, places)
    ensures Unpacked(LinesOf(Unzip(files), target, members, from), first, Unzipped(first, places, members))
  {
    var lines := LinesOf(Unzip(files), target, members, from);
    forall x, f | x in lines && f in x.Paths()
      ensures x.File? && Lookup(Unzipped(first, places, members), f) == Lookup(Filled(x, first), f)
    {
      UnzippedOnLine(files, target, members, from, first, places, x, f);
    }
    PlacesDiffer(files, target, members, from, first, places);
    forall f | forall x :: x in lines ==> f !in x.Paths()
      ensures Lookup(Unzipped(first, places, members), f) == Lookup(first, f)
    {
      UnzippedHas(first, places, members, f);
      if n :| n in places && places[n] == f {
        PlaceHasALine(files, target, members, from, first, places, n);
      }
    }
  }

  lemma DumpHasALine(files: seq<Pkg>, target: string, members: seq<Member>, from: Pkg -> Source, f: string) returns (x: Line)
    requires f in Dump(target, members)
    ensures x in LinesOf(ExtractAll(files), target, members, from) && f in x.Paths()
    ensures if x.File? then x.p.full == f else x == Rest(RestOf(target, members, files))
  {
    var lines := LinesOf(ExtractAll(files), target, members, from);
    if p :| p in files && p.full == f {
      LineIsThere(ExtractAll(files), target, members, from, p);
      x := LineOf(ExtractAll(files), target, members, from, p);
    } else {
      x := lines[|lines| - 1];
    }
  }

  lemma DumpedOnLine(files: seq<Pkg>, target: string, members: seq<Member>, from: Pkg -> Source, first: Disk, x: Line, f: string)
    requires LinesApart(LinesOf(ExtractAll(files), target, members, from))
    requires x in LinesOf(ExtractAll(files), target, members, from) && f in x.Paths()
    ensures Lookup(first + Dump(target, members), f) == Lookup(if x.File? then Filled(x, first) else first + x.dump, f)
  {
    LinesAreApart(LinesOf(ExtractAll(files), target, members, from));
    if x.File? {
      FileLineIsLaunched(ExtractAll(files), target, members, from, x);
    }
    if f in Dump(target, members) {
      var y := DumpHasALine(files, target, members, from, f);
      assert y == x;
    }
  }

  lemma DumpedIsUnpacked(files: seq<Pkg>, target: string, members: seq<Member>, from: Pkg -> Source, first: Disk)
    requires LinesApart(LinesOf(ExtractAll(files), target, members, from))
    ensures Unpacked(LinesOf(ExtractAll(files), target, members, from), first, first + Dump(target, members))
  {
    var lines := LinesOf(ExtractAll(files), target, members, from);
    forall x, f | x in lines && f in x.Paths()
      ensures Lookup(first + Dump(target, members), f) == Lookup(if x.File? then Filled(x, first) else first + x.dump, f)
    {
      DumpedOnLine(files, target, members, from, first, x, f);
    }
    forall f | f in Dump(target, members)
      ensures exists x :: x in lines && f in x.Paths()
    {
      var x := DumpHasALine(files, target, members, from, f);
    }
  }

  /** The files up to the i-th are as the worker leaves them, the others as they came out of the archive. */
  ghost predicate ValidatedUpTo(lines: seq<Line>, first: Disk, d: Disk, i: nat) {
    && (forall k :: 0 <= k < |lines| && lines[k].File? ==>
          SameOn(lines[k].Paths(), d, if k < i then Extraction(lines[k], first).0 else Filled(lines[k], first)))
    && (forall x :: x in lines && x.Rest? ==> SameOn(x.Paths(), d, first + x.dump))
    && OutsideSame(lines, d, first)
  }

  lemma ValidatesNext(lines: seq<Line>, first: Disk, d: Disk, i: nat)
    requires LinesApart(lines) && i < |lines| && lines[i].File? && !lines[i].way.Download? && ValidatedUpTo(lines, first, d, i)
    ensures ValidatedUpTo(lines, first, Validated(d, lines[i].p, PlaceOf(lines[i], first)), i + 1)
    ensures Lookup(d, PlaceOf(lines[i], first)) == Lookup(Filled(lines[i], first), PlaceOf(lines[i], first))
  {
    var x, place := lines[i], PlaceOf(lines[i], first);
    ValidatedIsLocal(x, d, Filled(x, first), place);
    var e := Validated(d, x.p, place);
    forall k | 0 <= k < |lines| && k != i
      ensures SameOn(lines[k].Paths(), e, d)
    {
      assert lines[k].Paths() !! x.Paths();
    }
  }

  /** A line is left as its extraction leaves it, when nothing stops it. */
  ghost predicate Extracted(lines: seq<Line>, first: Disk, d: Disk) {
    (forall x :: x in lines ==> SameOn(x.Paths(), d, if x.File? then Extraction(x, first).0 else first + x.dump)) && OutsideSame(lines, d, first)
  }

  /** Puts an archive's files on disk, as the worker before it decided. */
  class OpenZipContentsWorker {
    const fileSystem: FileSystem

    constructor (fs: FileSystem)
      ensures fileSystem == fs
    {
      fileSystem := fs;
    }

    /** The whole archive into one folder. */
    method ExtractAllTo(target: string, members: seq<Member>)
      modifies fileSystem
      ensures fileSystem.disk == old(fileSystem.disk) + Dump(target, members)
    {
      for i := 0 to |members|
        invariant fileSystem.disk == old(fileSystem.disk) + Dump(target, members[..i])
      {
        assert members[..i + 1][..i] == members[..i];
        fileSystem.disk := fileSystem.disk[Place(target, members[i].name) := members[i].hash];
      }
      assert members[..|members|] == members;
    }

    /** The members that are asked for, each to its place. */
    method UnzipContents(places: map<string, string>, members: seq<Member>)
      modifies fileSystem
      ensures fileSystem.disk == Unzipped(old(fileSystem.disk), places, members)
    {
      for i := 0 to |members|
        invariant fileSystem.disk == Unzipped(old(fileSystem.disk), places, members[..i])
      {
        assert members[..i + 1][..i] == members[..i];
        if members[i].name in places {
          fileSystem.disk := fileSystem.disk[places[members[i].name] := members[i].hash];
        }
      }
      assert members[..|members|] == members;
    }

    /** Nothing is copied yet: a file that exists goes through a temporary path. */
    method PrepareEach(files: seq<Pkg>, alreadyExists: bool, before: map<Pkg, string>) returns (paths: map<Pkg, string>)
      requires forall p :: p in files ==> (p.full in fileSystem.disk <==> alreadyExists)
      modifies fileSystem
      ensures fileSystem.disk == old(fileSystem.disk)
      ensures forall p :: p in paths <==> p in before || p in files
      ensures forall p :: p in paths ==> paths[p] == if p in files then PlaceFor(old(fileSystem.disk), p) else before[p]
    {
      ghost var first := fileSystem.disk;
      paths := before;
      for i := 0 to |files|
        invariant fileSystem.disk == first
        invariant forall p :: p in paths <==> p in before || p in files[..i]
        invariant forall p :: p in paths ==> paths[p] == if p in files[..i] then PlaceFor(first, p) else before[p]
      {
        assert files[i] in files;
        var path, _, _ := fileSystem.PrepareFileInstall(files[i], alreadyExists);
        assert files[..i + 1] == files[..i] + [files[i]];
        paths := paths[files[i] := path];
      }
      assert files[..|files|] == files;
    }

    /** The install paths, first of the files that exist. */
    method PrepareFileInstalls(files: seq<Pkg>) returns (paths: map<Pkg, string>)
      modifies fileSystem
      ensures fileSystem.disk == old(fileSystem.disk)
      ensures forall p :: p in paths <==> p in files
      ensures forall p :: p in paths ==> paths[p] == PlaceFor(old(fileSystem.disk), p)
    {
      var existing, missing := AreFiles(fileSystem.disk, files);
      KeepIn(files, OnDisk(fileSystem.disk));
      KeepIn(files, Missing(fileSystem.disk));
      paths := PrepareEach(existing, true, map[]);
      paths := PrepareEach(missing, false, paths);
    }

    /** By member name, where each file that is asked for goes: a later one over an earlier one. */
    method ZipPaths(files: seq<Pkg>, paths: map<Pkg, string>) returns (places: map<string, string>)
      requires forall p :: p in files ==> p in paths
      ensures forall n :: n in places <==> Taker(files, n).Some?
      ensures forall n :: n in places ==> Taker(files, n).value in paths && places[n] == paths[Taker(files, n).value]
    {
      places := map[];
      for i := 0 to |files|
        invariant forall n :: n in places <==> Taker(files[..i], n).Some?
        invariant forall n :: n in places ==> Taker(files[..i], n).value in paths && places[n] == paths[Taker(files[..i], n).value]
      {
        assert files[..i + 1][..i] == files[..i];
        assert files[i] in files;
        places := places[files[i].member := paths[files[i]]];
      }
      assert files[..|files|] == files;
    }

    /** A good file is put in place, and a bad one is removed unless it is in place. */
    method ValidateOne(p: Pkg, place: string) returns (good: bool)
      requires place in fileSystem.disk
      modifies fileSystem
      ensures fileSystem.disk == Validated(old(fileSystem.disk), p, place)
      ensures good <==> Holds(p, old(fileSystem.disk), place)
    {
      good := fileSystem.disk[place] == p.hash;
      if good {
        fileSystem.FinalizeFileInstall(place, p.full, p.backup);
      } else if place != p.full {
        fileSystem.Unlink(place);
      }
    }

    /** Looks at what came out of the archive. */
    method Validate(files: seq<Pkg>, paths: map<Pkg, string>, ghost lines: seq<Line>, ghost first: Disk) returns (invalid: seq<Pkg>)
      requires LinesApart(lines) && |files| <= |lines| && ValidatedUpTo(lines, first, fileSystem.disk, 0)
      requires forall i :: 0 <= i < |files| ==>
                 && lines[i].File? && lines[i].p == files[i] && !lines[i].way.Download?
                 && PlaceOf(lines[i], first) == if files[i] in paths then paths[files[i]] else files[i].full
      modifies fileSystem
      ensures ValidatedUpTo(lines, first, fileSystem.disk, |files|)
      ensures forall i :: 0 <= i < |files| && Wrong(lines[i], first) ==> files[i] in invalid
      ensures forall p :: p in invalid ==> exists i :: 0 <= i < |files| && files[i] == p && Wrong(lines[i], first)
    {
      var missing, mismatched := [], [];
      for i := 0 to |files|
        invariant ValidatedUpTo(lines, first, fileSystem.disk, i)
        invariant forall k :: 0 <= k < i && Wrong(lines[k], first) ==> files[k] in missing || files[k] in mismatched
        invariant forall p :: p in missing || p in mismatched ==> exists k :: 0 <= k < i && files[k] == p && Wrong(lines[k], first)
      {
        var p := files[i];
        var place := if p in paths then paths[p] else p.full;
        ValidatesNext(lines, first, fileSystem.disk, i);
        if place !in fileSystem.disk {
          missing := missing + [p];
        } else {
          var good := ValidateOne(p, place);
          if !good {
            mismatched := mismatched + [p];
          }
        }
      }
      invalid := missing + mismatched;
    }

    /** What can be downloaded is, unless its description is refused then; the rest has failed. */
    method Recover(invalid: seq<Pkg>, from: Pkg -> Source) returns (jobs: seq<Pkg>, failed: seq<Pkg>)
      ensures forall p :: p in jobs <==> p in invalid && from(p).FromUrl?
      ensures forall p :: p in failed <==> p in invalid && from(p).NoUrl?
    {
      var recoverable := Keep(invalid, (p: Pkg) => !from(p).NoUrl?);
      failed := Keep(invalid, (p: Pkg) => from(p).NoUrl?);
      jobs := Keep(recoverable, (p: Pkg) => from(p).FromUrl?);
      KeepIn(invalid, (p: Pkg) => !from(p).NoUrl?);
      KeepIn(invalid, (p: Pkg) => from(p).NoUrl?);
      KeepIn(recoverable, (p: Pkg) => from(p).FromUrl?);
    }

    /** Puts the archive's contents where they are wanted. */
    method Unpack(next: Next, target: string, members: seq<Member>, ghost from: Pkg -> Source) returns (paths: map<Pkg, string>)
      requires next.Unzip? || next.ExtractAll?
      requires LinesApart(LinesOf(next, target, members, from))
      modifies fileSystem
      ensures Unpacked(LinesOf(next, target, members, from), old(fileSystem.disk), fileSystem.disk)
      ensures forall p :: p in paths <==> next.Unzip? && p in next.files
      ensures forall p :: p in paths ==> paths[p] == PlaceFor(old(fileSystem.disk), p)
    {
      ghost var first := fileSystem.disk;
      if next.ExtractAll? {
        ExtractAllTo(target, members);
        DumpedIsUnpacked(next.files, target, members, from, first);
        return map[];
      }
      paths := PrepareFileInstalls(next.files);
      var places := ZipPaths(next.files, paths);
      UnzipContents(places, members);
      PathsArePlaces(next.files, target, members, from, first, paths, places);
      UnzippedIsUnpacked(next.files, target, members, from, first, places);
    }

    /**
     The whole extraction, up to the downloads that are launched for what came out wrong, and the
     files that are reported failed because they cannot be downloaded.
     */
    method OperateOn(next: Next, target: string, members: seq<Member>, from: Pkg -> Source) returns (jobs: seq<Pkg>, failed: seq<Pkg>)
      requires next.Unzip? || next.ExtractAll?
      requires LinesApart(LinesOf(next, target, members, from))
      modifies fileSystem
      ensures Extracted(LinesOf(next, target, members, from), old(fileSystem.disk), fileSystem.disk)
      ensures forall p :: p in jobs <==>
                p in next.files && Extraction(LineOf(next, target, members, from, p), old(fileSystem.disk)).1.recovering
      ensures forall p :: p in failed <==>
                p in next.files && Extraction(LineOf(next, target, members, from, p), old(fileSystem.disk)).1.stage == GivenUp(true)
      ensures forall p :: p in jobs <==>
                p in next.files && from(p).FromUrl? && Came(next, target, members, old(fileSystem.disk), p) != Some(p.hash)
      ensures forall p :: p in failed <==>
                p in next.files && from(p).NoUrl? && Came(next, target, members, old(fileSystem.disk), p) != Some(p.hash)
    {
      ghost var first, lines := fileSystem.disk, LinesOf(next, target, members, from);
      LinesAreOfFiles(next, target, members, from, first);
      var paths := Unpack(next, target, members, from);
      NoneValidated(lines, first, fileSystem.disk);
      var invalid := Validate(next.files, paths, lines, first);
      AllValidated(next, target, members, from, first, fileSystem.disk);
      InvalidAreWrong(next, target, members, from, first, invalid);
      jobs, failed := Recover(invalid, from);
      WrongIsWhatCame(next, target, members, from, first);
    }
  }

  /** What is in the file's place after the extraction: what the archive had for it, or else what was there. */
  function Came(next: Next, target: string, members: seq<Member>, first: Disk, p: Pkg): Option<string>
    requires next.Unzip? || next.ExtractAll?
  {
    var member := if next.Unzip? then Staged(next.files, members, p) else Lookup(Dump(target, members), p.full);
    if member.Some? then member else Lookup(first, if next.Unzip? then PlaceOfDownload(p, p.full in first) else p.full)
  }

  /** The worker's install path. */
  function PlaceFor(d: Disk, p: Pkg): string {
    var temp := TempPath(p, p.full in d);
    if temp.Some? then temp.value else p.full
  }

  /** What came out is not what was declared. */
  predicate Wrong(x: Line, first: Disk)
    requires x.File?
  {
    !Looked(x, first).stage.Done?
  }

  lemma PathsArePlaces(files: seq<Pkg>, target: string, members: seq<Member>, from: Pkg -> Source, first: Disk,
                       paths: map<Pkg, string>, places: map<string, string>)
    requires forall p :: p in paths ==> paths[p] == PlaceFor(first, p)
    requires forall n :: n in places <==> Taker(files, n).Some?
    requires forall n :: n in places ==> Taker(files, n).value in paths && places[n] == paths[Taker(files, n).value]
    ensures Placed(files, target, members, from, first, places)
  {
  }

  lemma LinesAreOfFiles(next: Next, target: string, members: seq<Member>, from: Pkg -> Source, first: Disk)
    requires next.Unzip? || next.ExtractAll?
    requires LinesApart(LinesOf(next, target, members, from))
    ensures var lines := LinesOf(next, target, members, from);
            && |next.files| <= |lines| && (forall i :: |next.files| <= i < |lines| ==> lines[i].Rest?)
            && forall i :: 0 <= i < |next.files| ==>
                 && lines[i] == LineOf(next, target, members, from, next.files[i]) && !lines[i].way.Download?
                 && PlaceOf(lines[i], first) == (if next.Unzip? then PlaceFor(first, next.files[i]) else next.files[i].full)
  {
  }

  lemma WrongIsWhatCame(next: Next, target: string, members: seq<Member>, from: Pkg -> Source, first: Disk)
    requires next.Unzip? || next.ExtractAll?
    ensures forall p ::
              var s, bad := Extraction(LineOf(next, target, members, from, p), first).1, Came(next, target, members, first, p) != Some(p.hash);
              (s.recovering <==> from(p).FromUrl? && bad) && (s.stage == GivenUp(true) <==> from(p).NoUrl? && bad)
  {
  }

  lemma NoneValidated(lines: seq<Line>, first: Disk, d: Disk)
    requires Unpacked(lines, first, d)
    ensures ValidatedUpTo(lines, first, d, 0)
  {
  }

  lemma InvalidAreWrong(next: Next, target: string, members: seq<Member>, from: Pkg -> Source, first: Disk, invalid: seq<Pkg>)
    requires next.Unzip? || next.ExtractAll?
    requires LinesApart(LinesOf(next, target, members, from))
    requires var lines := LinesOf(next, target, members, from);
             && |next.files| <= |lines| && (forall i :: 0 <= i < |next.files| ==> lines[i].File?)
             && (forall i :: 0 <= i < |next.files| && Wrong(lines[i], first) ==> next.files[i] in invalid)
             && forall p :: p in invalid ==> exists i :: 0 <= i < |next.files| && next.files[i] == p && Wrong(lines[i], first)
    ensures forall p ::
              var s := Extraction(LineOf(next, target, members, from, p), first).1;
              && (p in invalid && from(p).FromUrl? <==> p in next.files && s.recovering)
              && (p in invalid && from(p).NoUrl? <==> p in next.files && s.stage == GivenUp(true))
  {
    var lines := LinesOf(next, target, members, from);
    LinesAreOfFiles(next, target, members, from, first);
    forall p
      ensures var s := Extraction(LineOf(next, target, members, from, p), first).1;
              && (p in invalid && from(p).FromUrl? <==> p in next.files && s.recovering)
              && (p in invalid && from(p).NoUrl? <==> p in next.files && s.stage == GivenUp(true))
    {
      if p in next.files {
        var i :| 0 <= i < |next.files| && next.files[i] == p;
        assert lines[i] == LineOf(next, target, members, from, p);
        assert p in invalid ==> Wrong(lines[i], first);
      }
    }
  }

  lemma AllValidated(next: Next, target: string, members: seq<Member>, from: Pkg -> Source, first: Disk, d: Disk)
    requires next.Unzip? || next.ExtractAll?
    requires LinesApart(LinesOf(next, target, members, from))
    requires ValidatedUpTo(LinesOf(next, target, members, from), first, d, |next.files|)
    ensures Extracted(LinesOf(next, target, members, from), first, d)
  {
    var lines := LinesOf(next, target, members, from);
    LinesAreOfFiles(next, target, members, from, first);
    forall x | x in lines
      ensures SameOn(x.Paths(), d, if x.File? then Extraction(x, first).0 else first + x.dump)
    {
      var i :| 0 <= i < |lines| && lines[i] == x;
    }
  }

  /* ---- What is replaced ---- */

  /** The whole archive is dumped; a database's own index has no archive. */
  ghost predicate WholeZip(plan: Plan, zip: Option<Archive>, config: Config, opens: bool) {
    var files := ToInstall(plan);
    zip.Some? && plan.go && opens && files != [] && !Small(plan, zip.value, config, Sum(files, SizeOf())) && ShouldExtractAll(zip.value, files)
  }

  ghost predicate NextFor(plan: Plan, zip: Option<Archive>, config: Config, opens: bool, next: Next) {
    if zip.None? then next == Fetch(ToInstall(plan), plan.update) else Decides(plan, zip.value, config, opens, next)
  }

  /** The store vouches for the file, its content is another one, and the integrity of files is verified. */
  predicate IntegrityCase(s: DbStore, before: Disk, verify: bool, p: Pkg) {
    verify && !Unrecorded(s, p) && HashOn(before, p) != p.hash
  }

  /** The declared content can come: by download, out of the archive, or out of the temporary path. */
  predicate Comes(next: Next, members: seq<Member>, from: Pkg -> Source, before: Disk, p: Pkg) {
    match next
    case Nothing => false
    case Unzip(files) =>
      var staged := Staged(files, members, p);
      from(p).FromUrl? || staged == Some(p.hash) || (staged.None? && Holds(p, before, Temp(p)))
    case _ => from(p).FromUrl?
  }

  lemma OnlyTheIntegrityCase(s: DbStore, before: Disk, files: seq<Pkg>, verify: bool, plan: Plan, p: Pkg)
    requires Planned(s, before, files, verify, plan)
    requires p in files && p.full in before && !p.overwrite
    ensures p in ToInstall(plan) <==> plan.go && IntegrityCase(s, before, verify, p)
    ensures forall q :: q in ToInstall(plan) ==> q in files
  {
  }

  /** Different files of the index share no path. */
  ghost predicate FilesApart(files: seq<Pkg>) {
    forall p, q :: p in files && q in files && p != q ==> PathsOf(p) !! PathsOf(q)
  }

  function PathsOf(p: Pkg): set<string> { DownloadLine(p, false).Paths() }

  lemma LaunchedIsInstalled(next: Next, from: Pkg -> Source)
    ensures forall p :: p in Launched(next, from) <==> !next.Nothing? && p in next.files && (next.Fetch? ==> from(p).FromUrl?)
  {
    if next.Fetch? {
      KeepIn(next.files, p => from(p).FromUrl?);
    }
  }

  lemma LinesAreProper(s: DbStore, files: seq<Pkg>, verify: bool, plan: Plan, zip: Option<Archive>, config: Config, opens: bool,
                       next: Next, target: string, members: seq<Member>, from: Pkg -> Source, before: Disk)
    requires Planned(s, before, files, verify, plan) && NextFor(plan, zip, config, opens, next)
    ensures AllProper(LinesOf(next, target, members, from), before)
    ensures forall p :: p in Launched(next, from) ==> p in ToInstall(plan)
  {
    var lines := LinesOf(next, target, members, from);
    LaunchedIsInstalled(next, from);
    forall i | 0 <= i < |lines|
      ensures Proper(lines[i], before)
    {
      if lines[i].File? {
        FileLineIsLaunched(next, target, members, from, lines[i]);
      }
    }
  }

  /** Some run of the lines, stopped anywhere, leaves the file with another content or removed. */
  ghost predicate CanLose(next: Next, target: string, members: seq<Member>, from: Pkg -> Source, before: Disk, f: string) {
    SomeRunChanges(LinesOf(next, target, members, from), before, f)
  }

  /**
   Exactly when a file on disk can get another content or disappear, if everything may stop at any
   moment: the whole archive is dumped and has something for its place, or it is a path of a file
   to install, and that file's line can touch it: its target, its backup or its temporary path.
   */
  lemma FileIsTouchedIff(s: DbStore, files: seq<Pkg>, verify: bool, plan: Plan, zip: Option<Archive>, config: Config, opens: bool,
                         next: Next, target: string, members: seq<Member>, from: Pkg -> Source, before: Disk, f: string)
    requires Planned(s, before, files, verify, plan) && NextFor(plan, zip, config, opens, next)
    requires LinesApart(LinesOf(next, target, members, from)) && f in before
    ensures CanLose(next, target, members, from, before, f) <==>
              || (WholeZip(plan, zip, config, opens) && f in Dump(target, members))
              || exists p :: p in Launched(next, from) && Touches(next, target, members, from, before, p, f)
  {
    LinesAreProper(s, files, verify, plan, zip, config, opens, next, target, members, from, before);
    ChangesIff(LinesOf(next, target, members, from), before, f);
    SomeLineMayIff(next, target, members, from, before, f);
    assert next.ExtractAll? <==> WholeZip(plan, zip, config, opens);
  }

  lemma SomeLineMayIff(next: Next, target: string, members: seq<Member>, from: Pkg -> Source, before: Disk, f: string)
    ensures SomeLineMay(LinesOf(next, target, members, from), before, f) <==>
              (next.ExtractAll? && f in Dump(target, members)) || exists p :: p in Launched(next, from) && Touches(next, target, members, from, before, p, f)
  {
    var lines := LinesOf(next, target, members, from);
    if SomeLineMay(lines, before, f) {
      var i :| 0 <= i < |lines| && f in lines[i].Paths() && MayTouch(lines[i], before, f);
      if lines[i].File? {
        FileLineIsLaunched(next, target, members, from, lines[i]);
      }
    }
    if next.ExtractAll? && f in Dump(target, members) {
      DumpTouches(next.files, target, members, from, before, f);
    }
    if p :| p in Launched(next, from) && Touches(next, target, members, from, before, p, f) {
      LineIsThere(next, target, members, from, p);
    }
  }

  /** The file is the target, the backup or the temporary path of p, and some run of p's line changes it. */
  predicate Touches(next: Next, target: string, members: seq<Member>, from: Pkg -> Source, before: Disk, p: Pkg, f: string) {
    MayTouch(LineOf(next, target, members, from, p), before, f)
  }

  lemma DumpTouches(files: seq<Pkg>, target: string, members: seq<Member>, from: Pkg -> Source, before: Disk, f: string)
    requires f in Dump(target, members)
    ensures SomeLineMay(LinesOf(ExtractAll(files), target, members, from), before, f)
  {
    var lines := LinesOf(ExtractAll(files), target, members, from);
    var x := DumpHasALine(files, target, members, from, f);
    if x.File? {
      FileLineIsLaunched(ExtractAll(files), target, members, from, x);
    }
    assert MayTouch(x, before, f);
  }

  /**
   Exactly when a present file that must not be overwritten can get another content or disappear:
   the whole archive is dumped and has something for its place, or the file is installed all the
   same, because integrity is verified, the store vouches for it and its content changed, and the
   declared content can come, be it as a download after an extraction.
   */
  lemma ProtectedFileIsReplacedIff(s: DbStore, files: seq<Pkg>, verify: bool, plan: Plan, zip: Option<Archive>, config: Config, opens: bool,
                                   next: Next, target: string, members: seq<Member>, from: Pkg -> Source, before: Disk, p: Pkg)
    requires Planned(s, before, files, verify, plan) && NextFor(plan, zip, config, opens, next)
    requires LinesApart(LinesOf(next, target, members, from)) && FilesApart(files)
    requires p in files && p.full in before && !p.overwrite
    ensures CanLose(next, target, members, from, before, p.full) <==>
              || (WholeZip(plan, zip, config, opens) && p.full in Dump(target, members))
              || (plan.go && IntegrityCase(s, before, verify, p) && Comes(next, members, from, before, p))
  {
    FileIsTouchedIff(s, files, verify, plan, zip, config, opens, next, target, members, from, before, p.full);
    OnlyTheIntegrityCase(s, before, files, verify, plan, p);
    LinesAreProper(s, files, verify, plan, zip, config, opens, next, target, members, from, before);
    LaunchedIsInstalled(next, from);
    OnlyItsOwnLine(files, next, target, members, from, before, p);
    if p in Launched(next, from) {
      LineIsThere(next, target, members, from, p);
      assert next.ExtractAll? <==> WholeZip(plan, zip, config, opens);
      TargetIsTouchedIff(next, target, members, from, before, p);
    }
  }

  lemma OnlyItsOwnLine(files: seq<Pkg>, next: Next, target: string, members: seq<Member>, from: Pkg -> Source, before: Disk, p: Pkg)
    requires FilesApart(files) && p in files && forall q :: q in Launched(next, from) ==> q in files
    ensures forall q :: q in Launched(next, from) && Touches(next, target, members, from, before, q, p.full) ==> q == p
  {
    forall q | q in Launched(next, from) && Touches(next, target, members, from, before, q, p.full)
      ensures q == p
    {
      assert p.full in PathsOf(q) && p.full in PathsOf(p);
    }
  }

  lemma TargetIsTouchedIff(next: Next, target: string, members: seq<Member>, from: Pkg -> Source, before: Disk, p: Pkg)
    requires p in Launched(next, from) && p.full in before && !Holds(p, before, p.full) && OwnPathsDiffer(p)
    ensures Touches(next, target, members, from, before, p, p.full) <==>
              (next.ExtractAll? && p.full in Dump(target, members)) || Comes(next, members, from, before, p)
  {
    LaunchedIsInstalled(next, from);
    assert Temp(p) != p.full;
  }

  /**
   A file on disk that is no target of the index, say one that another database installed, can get
   another content or disappear exactly when the whole archive is dumped over it, or it is the
   backup or the temporary path of a file to install, and is written, moved or removed as such.
   */
  lemma ForeignFileIsReplacedIff(s: DbStore, files: seq<Pkg>, verify: bool, plan: Plan, zip: Option<Archive>, config: Config, opens: bool,
                                 next: Next, target: string, members: seq<Member>, from: Pkg -> Source, before: Disk, f: string)
    requires Planned(s, before, files, verify, plan) && NextFor(plan, zip, config, opens, next)
    requires LinesApart(LinesOf(next, target, members, from))
    requires f in before && forall p :: p in files ==> p.full != f
    ensures CanLose(next, target, members, from, before, f) <==>
              || (WholeZip(plan, zip, config, opens) && f in Dump(target, members))
              || exists p :: p in Launched(next, from) && SideEffect(LineOf(next, target, members, from, p), before, f)
  {
    FileIsTouchedIff(s, files, verify, plan, zip, config, opens, next, target, members, from, before, f);
    LinesAreProper(s, files, verify, plan, zip, config, opens, next, target, members, from, before);
    forall p | p in Launched(next, from)
      ensures p.full != f
    {
      assert p in ToInstall(plan) && p in files;
    }
  }

  /** The file is the backup or the temporary path of the line, and the install can write, move or remove it. */
  predicate SideEffect(x: Line, before: Disk, f: string)
    requires x.File?
  {
    || (x.p.backup == Some(f) && (MayCopy(x, before) || EndsAbsent(x, before)))
    || (f == Temp(x.p) && MayUseTemp(x, before))
  }

  /* ---- A whole zip over a protected file ---- */

  function Name(i: nat): string { seq(i, _ => 'x') }

  const TARGET := "/media/fat"

  function FileAt(i: nat): Pkg {
    Pkg(Name(i), Place(TARGET, Name(i)), None, "new", 1, false, Name(i), None, None)
  }

  function FilesUpTo(n: nat): seq<Pkg> { seq(n, i requires 0 <= i < n => FileAt(i)) }

  function MembersUpTo(n: nat): seq<Member> { seq(n, i requires 0 <= i < n => Member(Name(i), "new")) }

  lemma {:induction false} DumpsNew(n: nat, i: nat)
    requires i < n
    ensures var dump := Dump(TARGET, MembersUpTo(n)); Place(TARGET, Name(i)) in dump && dump[Place(TARGET, Name(i))] == "new"
  {
    assert MembersUpTo(n)[..n - 1] == MembersUpTo(n - 1);
    if i < n - 1 {
      DumpsNew(n - 1, i);
    }
  }

  lemma TargetsDiffer(i: nat, j: nat)
    requires i != j
    ensures FileAt(i).full != FileAt(j).full
  {
    assert |FileAt(i).full| == |TARGET| + 1 + i;
    assert |FileAt(j).full| == |TARGET| + 1 + j;
  }

  /** The store knows the last of the files, or does not know it. */
  function LastKnown(recorded: bool): DbStore {
    var entries: map<string, Desc> := if recorded then map[Name(59) := map["hash" := Text("new")]] else map[];
    DbStore(Paths(entries, map[]), None, map[], None, None)
  }

  function LastPlan(recorded: bool): Plan {
    Plan(FilesUpTo(59), [], if recorded then [] else [FileAt(59)], if recorded then [FileAt(59)] else [], [], true)
  }

  lemma LastIsLeftAlone(recorded: bool)
    ensures var d: Disk := map[FileAt(59).full := "mine"];
            Planned(LastKnown(recorded), d, FilesUpTo(60), false, LastPlan(recorded))
  {
    var d: Disk := map[FileAt(59).full := "mine"];
    forall i, j | 0 <= i < 60 && 0 <= j < 60 && i != j ensures FileAt(i).full != FileAt(j).full { TargetsDiffer(i, j); }
    assert FilesUpTo(60) == FilesUpTo(59) + [FileAt(59)];
    forall p | p in FilesUpTo(59) ensures p.full !in d {
      var i :| 0 <= i < 59 && FilesUpTo(59)[i] == p;
      assert p == FileAt(i);
    }
    assert Unrecorded(LastKnown(recorded), FileAt(59)) <==> !recorded;
  }

  /**
   A zip with sixty files, as many as the threshold. Fifty-nine are missing, and one is on disk with
   other content and must not be overwritten. The plan leaves that one alone, whether the store
   vouches for it or does not know it, and integrity is not verified. The whole zip is extracted
   over it.
   */
  lemma WholeZipReplacesProtectedFile(recorded: bool)
    ensures var s, files, plan, zip, config := LastKnown(recorded), FilesUpTo(60), LastPlan(recorded), Archive(Some(EXTRACT_ALL), 60), Config(60, 100);
            var p, before, next := FileAt(59), map[FileAt(59).full := "mine"], ExtractAll(FilesUpTo(59));
            var after: Disk := before + Dump(TARGET, MembersUpTo(60));
            && Planned(s, before, files, false, plan) && p in files && !p.overwrite
            && p !in ToInstall(plan) && Decides(plan, zip, config, true, next)
            && Lookup(before, p.full) == Some("mine") && Lookup(after, p.full) == Some("new")
  {
    LastIsLeftAlone(recorded);
    DumpsNew(60, 59);
    assert FilesUpTo(60)[59] == FileAt(59);
    assert ToInstall(LastPlan(recorded)) == FilesUpTo(59);
    OnlyTheIntegrityCase(LastKnown(recorded), map[FileAt(59).full := "mine"], FilesUpTo(60), false, LastPlan(recorded), FileAt(59));
  }

  /* ---- One file that was installed, and then changed by its user ---- */

  function Installed(): DbStore {
    DbStore(Paths(map[FileAt(1).path := map["hash" := Text("new")]], map[]), None, map[], None, None)
  }

  const Changed: Disk := map[FileAt(1).full := "mine"]
  const Checked := Plan([], [], [], [FileAt(1)], [FileAt(1)], true)

  lemma ChangedIsChecked()
    ensures Planned(Installed(), Changed, [FileAt(1)], true, Checked) && ToInstall(Checked) == [FileAt(1)]
  {
    assert !Unrecorded(Installed(), FileAt(1));
  }

  lemma OneLineIsApart(x: Line)
    requires x.File? && x.p == FileAt(1)
    ensures OwnPathsDiffer(x.p) && LinesApart([x])
  {
    assert |Beside(x.p)| == |x.p.full| + |SUFFIX|;
  }

  /** The integrity check has the file downloaded, and then it has the declared content. */
  lemma IntegrityCheckReplacesProtectedFile()
    ensures var p, x := FileAt(1), LineOf(Fetch([FileAt(1)], [FileAt(1)]), "", [], _ => FromUrl, FileAt(1));
            && !p.overwrite && Planned(Installed(), Changed, [p], true, Checked) && ToInstall(Checked) == [p]
            && Lookup(Changed, p.full) == Some("mine")
            && exists d, s :: Reaches(x, Changed, d, s) && s.stage.Done? && Lookup(d, p.full) == Some("new")
  {
    var x := LineOf(Fetch([FileAt(1)], [FileAt(1)]), "", [], _ => FromUrl, FileAt(1));
    ChangedIsChecked();
    OneLineIsApart(x);
    Begins(x, Changed);
    var d, s := Replaces(x, Changed, Changed, Begin);
  }

  /** An archive whose member for the file is another, or, to be dumped, one that lacks it. */
  function Bad(whole: bool): seq<Member> { if whole then [] else [Member(FileAt(1).member, "bad")] }

  function BadNext(whole: bool): Next { if whole then ExtractAll([FileAt(1)]) else Unzip([FileAt(1)]) }

  /**
   The integrity check has the file extracted, and that comes out wrong. The extraction does not
   touch the present file, or has nothing for its place, but the download after it is in place: it
   can leave the declared content, any other one, or nothing.
   */
  lemma RecoveryReplacesProtectedFile(whole: bool, content: Option<string>)
    ensures var p, x := FileAt(1), LineOf(BadNext(whole), TARGET, Bad(whole), _ => FromUrl, FileAt(1));
            var zip := Archive(Some(if whole then EXTRACT_ALL else EXTRACT_SINGLE), 1);
            && !p.overwrite && Planned(Installed(), Changed, [p], true, Checked) && Decides(Checked, zip, Config(1, 100), true, BadNext(whole))
            && Lookup(Changed, p.full) == Some("mine") && Lookup(Extraction(x, Changed).0, p.full) == Some("mine")
            && exists d, s :: Reaches(x, Changed, d, s) && Lookup(d, p.full) == content
                              && s.stage == if content == Some("new") then Done else GivenUp(false)
  {
    var p, x := FileAt(1), LineOf(BadNext(whole), TARGET, Bad(whole), _ => FromUrl, FileAt(1));
    ChangedIsChecked();
    OneLineIsApart(x);
    RecoveryEndsAnyhow(x, Changed, content);
  }
}
