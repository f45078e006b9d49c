/**
 Uninstalling databases (src/downloader/offline_uninstaller.py) on a disk that nobody else writes:
 drives can vanish, for good, before any call, and deleting can fail at any time. Every stored
 file of a reachable fragment is reported once, by what became of it; files that another database
 still claims are never unlinked.
 */
module Uninstall {
  import opened Prelude
  import opened Store
  import opened Removal

  /** A stored path: `key` in the store, `rel` as compared between databases, `full` on disk. */
  datatype Stored = Stored(key: string, rel: string, full: string, size: nat)

  /** The base section (no drive) or one drive's section, in whatever order its dictionaries list it. */
  datatype Fragment = Fragment(drive: Option<string>, files: seq<Stored>, folders: seq<Stored>)

  datatype Outcome = Removed | Claimed | Missing | Disconnected | Failed
  datatype Event = Event(db: string, file: Stored, outcome: Outcome)

  /** No folder comes after a shorter one, so none after the folder that it is in. */
  predicate LongestFirst(folders: seq<Stored>) { forall i, j :: 0 <= i < j < |folders| ==> |folders[i].rel| >= |folders[j].rel| }

  predicate NoneShorter(folders: seq<Stored>, length: nat) { forall f :: f in folders ==> |f.rel| >= length }

  function Inserted(f: Stored, folders: seq<Stored>): seq<Stored> {
    if folders == [] || |f.rel| >= |folders[0].rel| then [f] + folders else [folders[0]] + Inserted(f, folders[1..])
  }

  /** The same folders, the longest paths first. */
  function SortedByLength(folders: seq<Stored>): seq<Stored> {
    if folders == [] then [] else Inserted(folders[0], SortedByLength(folders[1..]))
  }

  lemma {:induction false} InsertedIn(f: Stored, folders: seq<Stored>)
    ensures forall x :: x in Inserted(f, folders) <==> x == f || x in folders
    ensures LongestFirst(folders) ==> LongestFirst(Inserted(f, folders))
  {
    if folders != [] && |f.rel| < |folders[0].rel| {
      var rest := Inserted(f, folders[1..]);
      InsertedIn(f, folders[1..]);
      assert folders == [folders[0]] + folders[1..];
      if LongestFirst(folders) {
        LongestTail(folders);
        LongestPut(folders[0], rest);
      }
    } else if LongestFirst(folders) {
      forall x | x in folders
        ensures |f.rel| >= |x.rel|
      {
        var i :| 0 <= i < |folders| && folders[i] == x;
      }
      LongestPut(f, folders);
    }
  }

  lemma LongestTail(folders: seq<Stored>)
    requires LongestFirst(folders) && folders != []
    ensures LongestFirst(folders[1..]) && forall x :: x in folders[1..] ==> |folders[0].rel| >= |x.rel|
  {
    assert forall i :: 0 <= i < |folders[1..]| ==> folders[1..][i] == folders[i + 1];
  }

  lemma LongestPut(f: Stored, folders: seq<Stored>)
    requires LongestFirst(folders) && forall x :: x in folders ==> |f.rel| >= |x.rel|
    ensures LongestFirst([f] + folders)
  {
    forall i, j | 0 <= i < j < |[f] + folders|
      ensures |([f] + folders)[i].rel| >= |([f] + folders)[j].rel|
    {
      assert ([f] + folders)[j] == folders[j - 1] && folders[j - 1] in folders;
      assert i > 0 ==> ([f] + folders)[i] == folders[i - 1];
    }
  }

  lemma {:induction false} SortedIn(folders: seq<Stored>)
    ensures LongestFirst(SortedByLength(folders)) && forall x :: x in SortedByLength(folders) <==> x in folders
  {
    if folders != [] {
      SortedIn(folders[1..]);
      InsertedIn(folders[0], SortedByLength(folders[1..]));
      assert folders == [folders[0]] + folders[1..];
    }
  }

  lemma TriedInOrder(removed: seq<Stored>, tried: seq<Stored>, folder: Stored)
    requires LongestFirst(removed) && NoneShorter(removed, |folder.rel|) && (tried == [] || tried == [folder])
    ensures LongestFirst(removed + tried) && NoneShorter(removed + tried, |folder.rel|)
    ensures forall f :: f in removed + tried ==> f in removed || f == folder
  {
    forall i, j | 0 <= i < j < |removed + tried|
      ensures |(removed + tried)[i].rel| >= |(removed + tried)[j].rel|
    {
      assert removed[i] in removed;
    }
  }

  predicate Gone(o: Outcome) { o.Removed? || o.Claimed? || o.Missing? }

  function FilesOf(events: seq<Event>): seq<Stored> { seq(|events|, i requires 0 <= i < |events| => events[i].file) }

  /** The drives of a database that could be reached at the start; the base section always can. */
  type Reach = set<Option<string>>
  type Reaches = map<string, Reach>

  /** The stored fragments of each database. */
  type Parts = map<string, seq<Fragment>>

  function ReachableFiles(fragments: seq<Fragment>, reachable: Reach): seq<Stored> {
    if fragments == [] then []
    else (if fragments[0].drive in reachable then fragments[0].files else []) + ReachableFiles(fragments[1..], reachable)
  }

  ghost predicate DistinctDrives(fragments: seq<Fragment>) {
    forall i, j :: 0 <= i < j < |fragments| ==> fragments[i].drive != fragments[j].drive
  }

  ghost predicate BaseReached(fragments: seq<Fragment>, reachable: Reach) {
    forall f :: f in fragments && f.drive.None? ==> f.drive in reachable
  }

  ghost predicate AllReached(fragments: seq<Fragment>, reachable: Reach) {
    forall f :: f in fragments ==> f.drive in reachable
  }

  /** The files and folders, and the drives that can still be reached: before each call some may vanish. */
  class FileSystem {
    const driveOf: string -> Option<string>
    var files: set<string>
    var folders: set<string>
    var mounted: set<string>
    ghost var unlinked: seq<Stored>
    ghost var removedFolders: seq<Stored>
    ghost var refusals: nat

    constructor (place: string -> Option<string>, disk: set<string>, dirs: set<string>, drives: set<string>)
      ensures driveOf == place && files == disk && folders == dirs && mounted == drives && unlinked == [] && removedFolders == []
    {
      driveOf, files, folders, mounted := place, disk, dirs, drives;
      unlinked, removedFolders, refusals := [], [], 0;
    }

    predicate Reached(path: string)
      reads this`mounted
    {
      driveOf(path).Some? ==> driveOf(path).value in mounted
    }

    predicate HasItems(path: string)
      reads this`files, this`folders
    {
      exists f | f in files + folders :: path + "/" <= f
    }

    method DrivesVanish()
      modifies this`mounted
      ensures mounted <= old(mounted)
    {
      var gone: set<string> := *;
      mounted := mounted - gone;
    }

    method IsFolder(path: string) returns (b: bool)
      modifies this`mounted
      ensures mounted <= old(mounted) && (b <==> path in folders && Reached(path))
    {
      DrivesVanish();
      b := path in folders && Reached(path);
    }

    method IsFile(path: string) returns (b: bool)
      modifies this`mounted
      ensures mounted <= old(mounted) && (b <==> path in files && Reached(path))
    {
      DrivesVanish();
      b := path in files && Reached(path);
    }

    method FolderHasItems(path: string) returns (b: bool)
      modifies this`mounted
      ensures mounted <= old(mounted) && (b <==> HasItems(path) && Reached(path))
    {
      DrivesVanish();
      b := HasItems(path) && Reached(path);
    }

    method Unlink(file: Stored) returns (ok: bool)
      modifies this`mounted, this`files, this`unlinked
      ensures mounted <= old(mounted) && unlinked == old(unlinked) + [file]
      ensures files == if ok then old(files) - {file.full} else old(files)
      ensures ok ==> file.full in old(files)
    {
      DrivesVanish();
      ok := *;
      ok := ok && file.full in files && Reached(file.full);
      if ok {
        files := files - {file.full};
      }
      unlinked := unlinked + [file];
    }

    /** An empty folder only. */
    method RemoveFolder(folder: Stored) returns (ok: bool)
      modifies this`mounted, this`folders, this`removedFolders, this`refusals
      ensures mounted <= old(mounted) && removedFolders == old(removedFolders) + [folder]
      ensures refusals == if ok then old(refusals) else old(refusals) + 1
      ensures folders == if ok then old(folders) - {folder.full} else old(folders)
      ensures ok ==> !old(HasItems(folder.full))
    {
      DrivesVanish();
      ok := *;
      ok := ok && folder.full in folders && Reached(folder.full) && !HasItems(folder.full);
      if ok {
        folders := folders - {folder.full};
      }
      removedFolders := removedFolders + [folder];
      refusals := if ok then refusals else refusals + 1;
    }
  }

  predicate HasLeftovers(s: DbStore) { s.base != NoPaths || exists d :: d in Drives(s) && Drives(s)[d] != NoPaths }

  function Pop(s: DbStore, kind: Kind, drive: Option<string>, key: string): DbStore {
    if drive.None? then s.(base := s.base.Without(kind, key))
    else if drive.value in Drives(s) then
      s.(external := Some(Drives(s)[drive.value := Drives(s)[drive.value].Without(kind, key)]))
    else s
  }

  /** Exactly one record goes. */
  lemma PopEffects(s: DbStore, kind: Kind, drive: Option<string>, key: string, other: Kind, loc: Option<string>, p: string)
    ensures At(Pop(s, kind, drive, key), other, loc, p) == if other == kind && loc == drive && p == key then None else At(s, other, loc, p)
  {
  }

  /* ---- The stored fragments of a database ---- */

  /** How a stored path becomes a package: its kind, its section, its key and its description decide. */
  type Packager = (Kind, Option<string>, string, Desc) -> Stored

  function SectionAt(s: DbStore, drive: Option<string>): Paths { if drive.None? then s.base else Section(s, drive.value) }

  /** One package for each entry. */
  ghost predicate Packages(xs: seq<Stored>, m: map<string, Desc>, kind: Kind, drive: Option<string>, make: Packager) {
    && |xs| == |m|
    && (forall x :: x in xs ==> exists k :: k in m && x == make(kind, drive, k, m[k]))
    && (forall k :: k in m ==> make(kind, drive, k, m[k]) in xs)
  }

  ghost predicate IsFragmentOf(s: DbStore, make: Packager, f: Fragment) {
    && (f.drive.Some? ==> f.drive.value in Drives(s))
    && Packages(f.files, SectionAt(s, f.drive).files, Files, f.drive, make)
    && Packages(f.folders, SectionAt(s, f.drive).folders, Folders, f.drive, make)
  }

  ghost predicate HasFragment(fragments: seq<Fragment>, drive: Option<string>) { exists f :: f in fragments && f.drive == drive }

  /** One fragment for the base section and one for each drive of the store. */
  ghost predicate FragmentsOf(s: DbStore, make: Packager, fragments: seq<Fragment>) {
    && DistinctDrives(fragments)
    && (forall f :: f in fragments ==> IsFragmentOf(s, make, f))
    && HasFragment(fragments, None) && forall d :: d in Drives(s) ==> HasFragment(fragments, Some(d))
  }

  method StoredPaths(m: map<string, Desc>, kind: Kind, drive: Option<string>, make: Packager) returns (xs: seq<Stored>)
    ensures Packages(xs, m, kind, drive, make)
  {
    xs := [];
    var rest := m.Keys;
    while rest != {}
      invariant rest <= m.Keys && |xs| + |rest| == |m.Keys|
      invariant forall x :: x in xs ==> exists k :: k in m && x == make(kind, drive, k, m[k])
      invariant forall k :: k in m.Keys - rest ==> make(kind, drive, k, m[k]) in xs
      decreases rest
    {
      var k :| k in rest;
      xs := xs + [make(kind, drive, k, m[k])];
      rest := rest - {k};
    }
  }

  method StoredFragment(s: DbStore, drive: Option<string>, make: Packager) returns (f: Fragment)
    requires drive.Some? ==> drive.value in Drives(s)
    ensures f.drive == drive && IsFragmentOf(s, make, f)
  {
    var section := SectionAt(s, drive);
    var files := StoredPaths(section.files, Files, drive, make);
    var folders := StoredPaths(section.folders, Folders, drive, make);
    f := Fragment(drive, files, folders);
  }

  lemma FragmentAdded(s: DbStore, make: Packager, fragments: seq<Fragment>, f: Fragment)
    requires DistinctDrives(fragments) && forall g :: g in fragments ==> g.drive != f.drive
    ensures DistinctDrives(fragments + [f]) && HasFragment(fragments + [f], f.drive)
    ensures forall d :: HasFragment(fragments, d) ==> HasFragment(fragments + [f], d)
  {
    assert forall i :: 0 <= i < |fragments| ==> fragments[i] in fragments;
    assert f in fragments + [f];
    forall d | HasFragment(fragments, d)
      ensures HasFragment(fragments + [f], d)
    {
      var g :| g in fragments && g.drive == d;
      assert g in fragments + [f];
    }
  }

  method StoredFragments(s: DbStore, make: Packager) returns (fragments: seq<Fragment>)
    ensures FragmentsOf(s, make, fragments)
  {
    var base := StoredFragment(s, None, make);
    fragments := [base];
    assert base in fragments;
    var rest := Drives(s).Keys;
    while rest != {}
      invariant rest <= Drives(s).Keys && DistinctDrives(fragments)
      invariant forall f :: f in fragments ==> IsFragmentOf(s, make, f) && (f.drive.None? || f.drive.value !in rest)
      invariant HasFragment(fragments, None) && forall d :: d in Drives(s).Keys - rest ==> HasFragment(fragments, Some(d))
      decreases rest
    {
      var d :| d in rest;
      var f := StoredFragment(s, Some(d), make);
      FragmentAdded(s, make, fragments, f);
      fragments := fragments + [f];
      rest := rest - {d};
    }
  }

  method StoredFragmentsByDb(stores: map<string, DbStore>, ids: seq<string>, make: Packager) returns (parts: Parts)
    ensures parts.Keys == (set db | db in ids && db in stores)
    ensures forall db :: db in parts ==> FragmentsOf(stores[db], make, parts[db])
  {
    parts := map[];
    for i := 0 to |ids|
      invariant parts.Keys == (set db | db in ids[..i] && db in stores)
      invariant forall db :: db in parts ==> FragmentsOf(stores[db], make, parts[db])
    {
      assert ids[..i + 1] == ids[..i] + [ids[i]];
      if ids[i] in stores {
        var fragments := StoredFragments(stores[ids[i]], make);
        parts := parts[ids[i] := fragments];
      }
    }
    assert ids[..|ids|] == ids;
  }

  /** Every record of a file in any section has a report that lets it go. */
  ghost predicate RecordsAccounted(events: seq<Event>, db: string, s: DbStore, make: Packager) {
    forall drive: Option<string>, k :: (drive.Some? ==> drive.value in Drives(s)) && k in SectionAt(s, drive).files ==>
      ReportedGone(events, db, make(Files, drive, k, SectionAt(s, drive).files[k]))
  }

  ghost predicate ReportedGone(events: seq<Event>, db: string, file: Stored) {
    exists i :: 0 <= i < |events| && events[i].db == db && events[i].file == file && Gone(events[i].outcome)
  }

  lemma AccountedFilesAreRecords(events: seq<Event>, db: string, s: DbStore, make: Packager, fragments: seq<Fragment>)
    requires FragmentsOf(s, make, fragments) && FilesAccounted(events, db, fragments)
    ensures RecordsAccounted(events, db, s, make)
  {
    forall drive: Option<string>, k | (drive.Some? ==> drive.value in Drives(s)) && k in SectionAt(s, drive).files
      ensures ReportedGone(events, db, make(Files, drive, k, SectionAt(s, drive).files[k]))
    {
      assert HasFragment(fragments, drive);
      var f :| f in fragments && f.drive == drive;
      assert IsFragmentOf(s, make, f);
      assert make(Files, drive, k, SectionAt(s, drive).files[k]) in f.files;
    }
  }

  /* ---- Who still claims a path ---- */

  ghost predicate ClaimedOutside(stores: map<string, DbStore>, attempted: set<string>, kind: Kind, low: string) {
    exists other :: other in stores && Lower(other) !in LowerAll(attempted) && Claims(stores[other], kind, low)
  }

  ghost predicate ClaimsExactly(stores: map<string, DbStore>, attempted: set<string>, kind: Kind, candidates: set<string>, claimed: set<string>) {
    forall low :: low in claimed <==> low in candidates && ClaimedOutside(stores, attempted, kind, low)
  }

  /** The candidates claimed by some database that is not being uninstalled, in any case and section. */
  method Claimants(stores: map<string, DbStore>, attempted: set<string>, kind: Kind, candidates: set<string>) returns (claimed: set<string>)
    ensures ClaimsExactly(stores, attempted, kind, candidates, claimed)
  {
    claimed := {};
    var rest := stores.Keys;
    while rest != {}
      invariant rest <= stores.Keys
      invariant forall low :: low in claimed <==> low in candidates && ClaimedOutside(stores - rest, attempted, kind, low)
      decreases rest
    {
      var other :| other in rest;
      ghost var before := stores - rest;
      if Lower(other) !in LowerAll(attempted) {
        claimed := claimed + MatchingPathsCi(stores[other], kind, candidates);
        forall low { MatchingIsClaiming(stores[other], kind, candidates, low); }
      }
      rest := rest - {other};
      assert stores - rest == before[other := stores[other]];
      forall low
        ensures ClaimedOutside(stores - rest, attempted, kind, low) <==>
                  || ClaimedOutside(before, attempted, kind, low)
                  || (Lower(other) !in LowerAll(attempted) && Claims(stores[other], kind, low))
      {
        OneMoreClaimant(before, other, stores[other], attempted, kind, low);
      }
    }
    assert stores - rest == stores;
  }

  lemma OneMoreClaimant(stores: map<string, DbStore>, other: string, s: DbStore, attempted: set<string>, kind: Kind, low: string)
    requires other !in stores
    ensures ClaimedOutside(stores[other := s], attempted, kind, low) <==>
              || ClaimedOutside(stores, attempted, kind, low)
              || (Lower(other) !in LowerAll(attempted) && Claims(s, kind, low))
  {
  }

  ghost predicate LostIn(driveOf: string -> Option<string>, folders: set<string>, mounted: set<string>, drive: Option<string>) {
    drive.Some? && !(drive.value in folders && (driveOf(drive.value).Some? ==> driveOf(drive.value).value in mounted))
  }

  ghost predicate UnreachedIn(driveOf: string -> Option<string>, folders: set<string>, mounted: set<string>, fragments: seq<Fragment>,
                              reachable: Reach)
  {
    forall f :: f in fragments && f.drive !in reachable ==> LostIn(driveOf, folders, mounted, f.drive)
  }

  /** What is lost stays lost. */
  lemma UnreachedStays(driveOf: string -> Option<string>, folders: set<string>, mounted: set<string>, later: set<string>, left: set<string>,
                       parts: Parts, reachable: Reaches)
    requires later <= folders && left <= mounted
    requires forall db :: db in parts && db in reachable ==> UnreachedIn(driveOf, folders, mounted, parts[db], reachable[db])
    ensures forall db :: db in parts && db in reachable ==> UnreachedIn(driveOf, later, left, parts[db], reachable[db])
  {
  }

  /** A path of the drive; the drive's own path is one. */
  ghost predicate IsOn(fs: FileSystem, drive: Option<string>, path: string) {
    fs.driveOf(path) == drive && (drive.Some? ==> fs.driveOf(drive.value) == drive)
  }

  ghost predicate AreOn(fs: FileSystem, f: Fragment) {
    forall x :: x in f.files || x in f.folders ==> IsOn(fs, f.drive, x.full)
  }

  ghost predicate AllOn(fs: FileSystem, fragments: seq<Fragment>) { forall f :: f in fragments ==> AreOn(fs, f) }

  /** Packages go where their section is. */
  ghost predicate Places(fs: FileSystem, make: Packager) {
    forall kind: Kind, drive, k, desc :: IsOn(fs, drive, make(kind, drive, k, desc).full)
  }

  lemma FragmentsAreOn(fs: FileSystem, s: DbStore, make: Packager, fragments: seq<Fragment>)
    requires Places(fs, make) && FragmentsOf(s, make, fragments)
    ensures AllOn(fs, fragments)
  {
    forall f, x | f in fragments && (x in f.files || x in f.folders)
      ensures IsOn(fs, f.drive, x.full)
    {
      assert IsFragmentOf(s, make, f);
    }
  }

  /** Since the first n reports. */
  ghost predicate SomeFailed(events: seq<Event>, n: nat) { exists i :: n <= i < |events| && events[i].outcome.Failed? }

  ghost predicate IsFolderOf(fragments: seq<Fragment>, folder: Stored) { exists f :: f in fragments && folder in f.folders }

  /** A report that is true of the files on disk. */
  ghost predicate TrueNow(disk: set<string>, claimed: set<string>, e: Event) {
    && (e.outcome.Removed? || e.outcome.Missing? ==> e.file.full !in disk)
    && (e.outcome.Claimed? ==> Lower(e.file.rel) in claimed)
  }

  /** The path is that of one of the files, which is not claimed. */
  ghost predicate LostTo(files: seq<Stored>, claimed: set<string>, path: string) {
    exists x :: x in files && x.full == path && Lower(x.rel) !in claimed
  }

  /**
   What removing some files leaves behind: one report each, in order; only unclaimed unlinks; what
   is reported removed or missing is not on disk; and what is no longer on disk is one of them.
   */
  ghost predicate Reported(db: string, e0: seq<Event>, e: seq<Event>, u0: seq<Stored>, u: seq<Stored>, disk0: set<string>, disk: set<string>,
                           files: seq<Stored>, claimed: set<string>)
  {
    && e0 <= e && FilesOf(e[|e0|..]) == files
    && (forall i :: |e0| <= i < |e| ==> e[i].db == db && TrueNow(disk, claimed, e[i]))
    && u0 <= u
    && (forall i :: |u0| <= i < |u| ==> u[i] in files && Lower(u[i].rel) !in claimed)
    && disk <= disk0
    && (forall f :: f in disk0 && f !in disk ==> LostTo(files, claimed, f))
  }

  lemma ReportedMore(db: string, e0: seq<Event>, e1: seq<Event>, e2: seq<Event>, u0: seq<Stored>, u1: seq<Stored>, u2: seq<Stored>,
                     disk0: set<string>, disk1: set<string>, disk2: set<string>, xs: seq<Stored>, ys: seq<Stored>, claimed: set<string>)
    requires Reported(db, e0, e1, u0, u1, disk0, disk1, xs, claimed) && Reported(db, e1, e2, u1, u2, disk1, disk2, ys, claimed)
    ensures Reported(db, e0, e2, u0, u2, disk0, disk2, xs + ys, claimed)
  {
    AddedFiles(e0, e1, e2);
    forall f | f in disk0 && f !in disk2
      ensures LostTo(xs + ys, claimed, f)
    {
      var zs := if f in disk1 then ys else xs;
      assert LostTo(zs, claimed, f);
      var x :| x in zs && x.full == f && Lower(x.rel) !in claimed;
      assert x in xs + ys;
    }
    forall i | |u0| <= i < |u2|
      ensures u2[i] in xs + ys && Lower(u2[i].rel) !in claimed
    {
      assert i < |u1| ==> u2[i] == u1[i];
    }
    forall i | |e0| <= i < |e2|
      ensures e2[i].db == db && TrueNow(disk2, claimed, e2[i])
    {
      assert i < |e1| ==> e2[i] == e1[i] && TrueNow(disk1, claimed, e1[i]);
    }
  }

  lemma ReportedOneMore(db: string, e0: seq<Event>, e1: seq<Event>, e2: seq<Event>, u0: seq<Stored>, u1: seq<Stored>, u2: seq<Stored>,
                        disk0: set<string>, disk1: set<string>, disk2: set<string>, files: seq<Stored>, file: Stored, claimed: set<string>)
    requires Reported(db, e0, e1, u0, u1, disk0, disk1, files, claimed)
    requires |e2| == |e1| + 1 && e1 <= e2 && e2[|e1|].db == db && e2[|e1|].file == file && TrueNow(disk2, claimed, e2[|e1|])
    requires u1 <= u2 && forall i :: |u1| <= i < |u2| ==> u2[i] == file && Lower(u2[i].rel) !in claimed
    requires disk2 == disk1 || (disk2 == disk1 - {file.full} && Lower(file.rel) !in claimed)
    ensures Reported(db, e0, e2, u0, u2, disk0, disk2, files + [file], claimed)
  {
    assert e2[|e1|..] == [e2[|e1|]] && FilesOf([e2[|e1|]]) == [file];
    forall f | f in disk1 && f !in disk2
      ensures LostTo([file], claimed, f)
    {
      assert file in [file];
    }
    ReportedMore(db, e0, e1, e2, u0, u1, u2, disk0, disk1, disk2, files, [file], claimed);
  }

  class OfflineUninstaller {
    const fileSystem: FileSystem
    const retries: nat
    var stores: map<string, DbStore>
    var events: seq<Event>

    constructor (fs: FileSystem, downloaderRetries: nat, loaded: map<string, DbStore>)
      ensures fileSystem == fs && retries == downloaderRetries && stores == loaded && events == []
    {
      fileSystem, retries, stores, events := fs, downloaderRetries, loaded, [];
    }

    /** The drive can no longer be reached, for good. */
    ghost predicate Lost(drive: Option<string>)
      reads fileSystem
    {
      LostIn(fileSystem.driveOf, fileSystem.folders, fileSystem.mounted, drive)
    }

    ghost predicate SomeLost(fragments: seq<Fragment>)
      reads fileSystem
    {
      exists f :: f in fragments && Lost(f.drive)
    }

    ghost predicate AllLost(drives: set<string>)
      reads fileSystem
    {
      forall d :: d in drives ==> Lost(Some(d))
    }

    method IsConnected(drive: Option<string>) returns (connected: bool)
      modifies fileSystem`mounted
      ensures fileSystem.mounted <= old(fileSystem.mounted) && (connected <==> !Lost(drive))
    {
      connected := true;
      if drive.Some? {
        connected := fileSystem.IsFolder(drive.value);
      }
    }

    /** Tries again until the file is gone; a vanished drive ends the attempts. */
    method UnlinkWithRetries(file: Stored, drive: Option<string>) returns (ok: bool)
      requires IsOn(fileSystem, drive, file.full) && file.full in fileSystem.files
      modifies fileSystem`mounted, fileSystem`files, fileSystem`unlinked
      ensures |fileSystem.unlinked| > |old(fileSystem.unlinked)| && old(fileSystem.unlinked) <= fileSystem.unlinked
      ensures |fileSystem.unlinked| <= |old(fileSystem.unlinked)| + retries + 1
      ensures forall i :: |old(fileSystem.unlinked)| <= i < |fileSystem.unlinked| ==> fileSystem.unlinked[i] == file
      ensures fileSystem.mounted <= old(fileSystem.mounted)
      ensures fileSystem.files == if ok then old(fileSystem.files) - {file.full} else old(fileSystem.files)
      ensures !ok && !Lost(drive) ==> |fileSystem.unlinked| == |old(fileSystem.unlinked)| + retries + 1
    {
      ok := false;
      var attempt := 0;
      while attempt < retries + 1
        invariant attempt <= retries + 1 && |fileSystem.unlinked| == |old(fileSystem.unlinked)| + attempt
        invariant old(fileSystem.unlinked) <= fileSystem.unlinked
        invariant forall i :: |old(fileSystem.unlinked)| <= i < |fileSystem.unlinked| ==> fileSystem.unlinked[i] == file
        invariant fileSystem.mounted <= old(fileSystem.mounted) && fileSystem.files == old(fileSystem.files) && !ok
      {
        ok := fileSystem.Unlink(file);
        attempt := attempt + 1;
        var present := false;
        if !ok {
          present := fileSystem.IsFile(file.full);
        }
        var connected := IsConnected(drive);
        if !present {
          if connected {
            ok := true;
          }
          return;
        }
        if !connected {
          return;
        }
      }
    }

    /**
     One report for the file, by what became of it: it is gone, another database claims it, it was
     not there, its drive is lost, or every attempt failed. Its record goes in the first three cases.
     */
    method RemoveFile(db: string, drive: Option<string>, file: Stored, claimed: set<string>, away: set<string>)
      returns (outcome: Outcome, disconnected: set<string>)
      requires db in stores && IsOn(fileSystem, drive, file.full) && AllLost(away)
      modifies this`stores, this`events, fileSystem`mounted, fileSystem`files, fileSystem`unlinked
      ensures events == old(events) + [Event(db, file, outcome)]
      ensures away <= disconnected && AllLost(disconnected) && fileSystem.mounted <= old(fileSystem.mounted)
      ensures outcome.Disconnected? ==> drive.Some? && drive.value in disconnected
      ensures disconnected != away ==> Lost(drive)
      ensures outcome.Claimed? <==> Lower(file.rel) in claimed && !(drive.Some? && drive.value in away)
      ensures outcome.Removed? ==> file.full in old(fileSystem.files) && |fileSystem.unlinked| > |old(fileSystem.unlinked)|
      ensures outcome.Missing? ==> file.full !in fileSystem.files
      ensures outcome.Removed? || outcome.Missing? || outcome.Failed? ==> Lower(file.rel) !in claimed
      ensures outcome.Failed? ==> file.full in fileSystem.files && |fileSystem.unlinked| == |old(fileSystem.unlinked)| + retries + 1
      ensures fileSystem.files == if outcome.Removed? then old(fileSystem.files) - {file.full} else old(fileSystem.files)
      ensures stores == if Gone(outcome) then old(stores)[db := Pop(old(stores)[db], Files, drive, file.key)] else old(stores)
      ensures old(fileSystem.unlinked) <= fileSystem.unlinked
      ensures forall i :: |old(fileSystem.unlinked)| <= i < |fileSystem.unlinked| ==>
                fileSystem.unlinked[i] == file && Lower(file.rel) !in claimed
    {
      disconnected := away;
      if drive.Some? && drive.value in away {
        outcome := Disconnected;
      } else if Lower(file.rel) in claimed {
        outcome := Claimed;
      } else {
        var present := fileSystem.IsFile(file.full);
        var ok := false;
        if present {
          ok := UnlinkWithRetries(file, drive);
        }
        if ok {
          outcome := Removed;
        } else {
          var connected := IsConnected(drive);
          if !connected {
            disconnected := disconnected + {drive.value};
            outcome := Disconnected;
          } else {
            outcome := if present then Failed else Missing;
          }
        }
      }
      if Gone(outcome) {
        stores := stores[db := Pop(stores[db], Files, drive, file.key)];
      }
      events := events + [Event(db, file, outcome)];
    }

    twostate predicate ReportedEach(db: string, files: seq<Stored>, claimed: set<string>)
      reads this, fileSystem
    {
      && Reported(db, old(events), events, old(fileSystem.unlinked), fileSystem.unlinked, old(fileSystem.files), fileSystem.files, files, claimed)
      && fileSystem.mounted <= old(fileSystem.mounted)
    }

    twostate predicate OthersStay(db: string)
      reads this
    {
      stores.Keys == old(stores).Keys && forall o :: o in stores && o != db ==> stores[o] == old(stores)[o]
    }

    /** The files of a lost drive are reported too. */
    method RemoveFragment(db: string, fragment: Fragment, claimed: set<string>, away: set<string>)
      returns (disconnected: set<string>, failure: bool)
      requires db in stores && AllLost(away) && AreOn(fileSystem, fragment)
      modifies this`stores, this`events, fileSystem`mounted, fileSystem`files, fileSystem`unlinked
      ensures ReportedEach(db, fragment.files, claimed) && OthersStay(db)
      ensures away <= disconnected && AllLost(disconnected) && (disconnected != away ==> Lost(fragment.drive))
      ensures disconnected == {} && !failure ==> forall i :: |old(events)| <= i < |events| ==> Gone(events[i].outcome)
      ensures failure <==> SomeFailed(events, |old(events)|)
    {
      disconnected, failure := away, false;
      var drive, files := fragment.drive, fragment.files;
      var connected := IsConnected(drive);
      if !connected {
        disconnected := disconnected + {drive.value};
      }
      for i := 0 to |files|
        invariant ReportedEach(db, files[..i], claimed) && OthersStay(db)
        invariant away <= disconnected && AllLost(disconnected)
        invariant disconnected != away ==> Lost(drive)
        invariant failure <==> SomeFailed(events, |old(events)|)
        invariant disconnected == {} && !failure ==>
                    forall k :: |old(events)| <= k < |events| ==> Gone(events[k].outcome)
      {
        assert files[..i + 1] == files[..i] + [files[i]];
        assert files[i] in files;
        ghost var before, unlinked, disk := events, fileSystem.unlinked, fileSystem.files;
        var outcome;
        outcome, disconnected := RemoveFile(db, drive, files[i], claimed, disconnected);
        failure := failure || outcome.Failed?;
        ReportedOneMore(db, old(events), before, events, old(fileSystem.unlinked), unlinked, fileSystem.unlinked,
                        old(fileSystem.files), disk, fileSystem.files, files[..i], files[i], claimed);
      }
      assert files[..|files|] == files;
    }

    /** All files of a database's reachable fragments. */
    method RemoveFiles(db: string, fragments: seq<Fragment>, claimed: set<string>, reachable: Reach)
      returns (disconnected: set<string>, failure: bool)
      requires db in stores && BaseReached(fragments, reachable) && AllOn(fileSystem, fragments) && UnreachedIsLost(fragments, reachable)
      modifies this`stores, this`events, fileSystem`mounted, fileSystem`files, fileSystem`unlinked
      ensures ReportedEach(db, ReachableFiles(fragments, reachable), claimed) && OthersStay(db)
      ensures AllLost(disconnected) && (disconnected != {} ==> SomeLost(fragments))
      ensures failure <==> SomeFailed(events, |old(events)|)
      ensures disconnected == {} && !failure ==>
                && (forall i :: |old(events)| <= i < |events| ==> Gone(events[i].outcome))
                && AllReached(fragments, reachable)
    {
      disconnected, failure := {}, false;
      ghost var done: seq<Stored> := [];
      for i := 0 to |fragments|
        invariant done == ReachableFiles(fragments[..i], reachable)
        invariant ReportedEach(db, done, claimed) && OthersStay(db)
        invariant AllLost(disconnected) && (disconnected != {} ==> SomeLost(fragments))
        invariant failure <==> SomeFailed(events, |old(events)|)
        invariant disconnected == {} && !failure ==>
                    && (forall k :: |old(events)| <= k < |events| ==> Gone(events[k].outcome))
                    && (forall k :: 0 <= k < i ==> fragments[k].drive in reachable)
      {
        assert fragments[..i + 1] == fragments[..i] + [fragments[i]];
        assert fragments[i] in fragments;
        ReachableAppend(fragments[..i], fragments[i], reachable);
        if fragments[i].drive in reachable {
          ghost var before, unlinked, disk := events, fileSystem.unlinked, fileSystem.files;
          var failed;
          disconnected, failed := RemoveFragment(db, fragments[i], claimed, disconnected);
          failure := failure || failed;
          ReportedMore(db, old(events), before, events, old(fileSystem.unlinked), unlinked, fileSystem.unlinked,
                       old(fileSystem.files), disk, fileSystem.files, done, fragments[i].files, claimed);
          done := done + fragments[i].files;
        } else {
          disconnected := disconnected + {fragments[i].drive.value};
        }
      }
      assert fragments[..|fragments|] == fragments;
    }

    /** What could not be reached when the totals were taken stays lost. */
    ghost predicate UnreachedIsLost(fragments: seq<Fragment>, reachable: Reach)
      reads fileSystem
    {
      UnreachedIn(fileSystem.driveOf, fileSystem.folders, fileSystem.mounted, fragments, reachable)
    }

    /** One folder, if it is there and empty. Without a failure it is gone, has items, or cannot be reached any more. */
    method RemoveFolder(drive: Option<string>, folder: Stored) returns (connected: bool, ok: bool, ghost tried: seq<Stored>)
      modifies fileSystem`mounted, fileSystem`folders, fileSystem`removedFolders, fileSystem`refusals
      ensures !connected ==> Lost(drive)
      ensures fileSystem.refusals == if ok then old(fileSystem.refusals) else old(fileSystem.refusals) + 1
      ensures fileSystem.removedFolders == old(fileSystem.removedFolders) + tried && (tried == [] || tried == [folder])
      ensures fileSystem.mounted <= old(fileSystem.mounted) && fileSystem.folders <= old(fileSystem.folders)
      ensures drive.None? ==> connected
      ensures connected && ok ==>
                folder.full !in fileSystem.folders || fileSystem.HasItems(folder.full) || !fileSystem.Reached(folder.full)
      ensures tried != [] ==> !old(fileSystem.HasItems(folder.full)) || !fileSystem.Reached(folder.full)
    {
      connected, ok, tried := true, true, [];
      if drive.Some? {
        connected := fileSystem.IsFolder(drive.value);
      }
      if connected {
        var isFolder := fileSystem.IsFolder(folder.full);
        var hasItems := false;
        if isFolder {
          hasItems := fileSystem.FolderHasItems(folder.full);
        }
        if isFolder && !hasItems {
          ok := fileSystem.RemoveFolder(folder);
          tried := [folder];
          if !ok && drive.Some? {
            connected := fileSystem.IsFolder(drive.value);
          }
        }
      }
    }

    /** The folders of a fragment, longest paths first; a claimed one only loses its record. */
    method RemoveFolders(db: string, fragment: Fragment, claimed: set<string>, away: set<string>)
      returns (disconnected: set<string>, failure: bool, ghost removed: seq<Stored>)
      requires db in stores && AllLost(away)
      modifies this`stores, fileSystem`mounted, fileSystem`folders, fileSystem`removedFolders, fileSystem`refusals
      ensures AllLost(disconnected) && (disconnected != away ==> Lost(fragment.drive))
      ensures old(fileSystem.refusals) <= fileSystem.refusals && (failure ==> old(fileSystem.refusals) < fileSystem.refusals)
      ensures OthersStay(db)
      ensures fileSystem.mounted <= old(fileSystem.mounted) && fileSystem.folders <= old(fileSystem.folders)
      ensures away <= disconnected && fileSystem.removedFolders == old(fileSystem.removedFolders) + removed
      ensures LongestFirst(removed) && forall f :: f in removed ==> f in fragment.folders && Lower(f.rel) !in claimed
    {
      disconnected, failure, removed := away, false, [];
      var drive := fragment.drive;
      var folders := SortedByLength(fragment.folders);
      SortedIn(fragment.folders);
      for i := 0 to |folders|
        invariant OthersStay(db)
        invariant fileSystem.mounted <= old(fileSystem.mounted) && fileSystem.folders <= old(fileSystem.folders)
        invariant away <= disconnected && fileSystem.removedFolders == old(fileSystem.removedFolders) + removed
        invariant LongestFirst(removed) && forall f :: f in removed ==> f in fragment.folders && Lower(f.rel) !in claimed
        invariant AllLost(disconnected) && (disconnected != away ==> Lost(drive))
        invariant old(fileSystem.refusals) <= fileSystem.refusals && (failure ==> old(fileSystem.refusals) < fileSystem.refusals)
        invariant i < |folders| ==> NoneShorter(removed, |folders[i].rel|)
      {
        var folder := folders[i];
        if Lower(folder.rel) !in claimed {
          var connected, ok;
          ghost var tried;
          connected, ok, tried := RemoveFolder(drive, folder);
          TriedInOrder(removed, tried, folder);
          removed := removed + tried;
          if !connected {
            disconnected := disconnected + {drive.value};
            return;
          }
          if !ok {
            failure := true;
            continue;
          }
        }
        stores := stores[db := Pop(stores[db], Folders, drive, folder.key)];
      }
    }

    /**
     Removes a database. It reports every file of its reachable fragments once, unlinks none that
     is claimed, and succeeds only if every loaded file was removed, missing or claimed and no
     record is left. It fails only for a reason: a file or folder that could not be deleted, a lost
     drive, or a record that is left.
     */
    method RemoveDb(db: string, fragments: seq<Fragment>, claimedFiles: set<string>, claimedFolders: set<string>, reachable: Reach)
      returns (failed: bool, driveDisconnected: bool)
      requires db in stores && BaseReached(fragments, reachable) && AllOn(fileSystem, fragments) && UnreachedIsLost(fragments, reachable)
      modifies this`stores, this`events, fileSystem
      ensures ReportedEach(db, ReachableFiles(fragments, reachable), claimedFiles) && OthersStay(db)
      ensures fileSystem.folders <= old(fileSystem.folders) && old(fileSystem.removedFolders) <= fileSystem.removedFolders
      ensures forall i :: |old(fileSystem.removedFolders)| <= i < |fileSystem.removedFolders| ==>
                IsFolderOf(fragments, fileSystem.removedFolders[i]) && Lower(fileSystem.removedFolders[i].rel) !in claimedFolders
      ensures !failed ==>
                && (forall i :: |old(events)| <= i < |events| ==> Gone(events[i].outcome))
                && AllReached(fragments, reachable)
                && !HasLeftovers(stores[db])
      ensures driveDisconnected ==> failed
      ensures failed ==>
                || SomeFailed(events, |old(events)|) || fileSystem.refusals > old(fileSystem.refusals)
                || SomeLost(fragments) || HasLeftovers(stores[db])
    {
      var disconnected, otherFailure := RemoveFiles(db, fragments, claimedFiles, reachable);
      ghost var reported, unlinked, disk := events, fileSystem.unlinked, fileSystem.files;
      ghost var clean := disconnected == {} && !otherFailure;
      for i := 0 to |fragments|
        invariant OthersStay(db)
        invariant events == reported && fileSystem.unlinked == unlinked && fileSystem.files == disk
        invariant fileSystem.mounted <= old(fileSystem.mounted) && fileSystem.folders <= old(fileSystem.folders)
        invariant disconnected == {} && !otherFailure ==> clean
        invariant old(fileSystem.removedFolders) <= fileSystem.removedFolders
        invariant forall k :: |old(fileSystem.removedFolders)| <= k < |fileSystem.removedFolders| ==>
                    IsFolderOf(fragments, fileSystem.removedFolders[k]) && Lower(fileSystem.removedFolders[k].rel) !in claimedFolders
        invariant AllLost(disconnected) && (disconnected != {} ==> SomeLost(fragments))
        invariant fileSystem.refusals >= old(fileSystem.refusals)
        invariant otherFailure ==> SomeFailed(events, |old(events)|) || fileSystem.refusals > old(fileSystem.refusals)
      {
        if !(fragments[i].drive.Some? && fragments[i].drive.value in disconnected) {
          assert fragments[i] in fragments;
          var failure;
          ghost var removed;
          disconnected, failure, removed := RemoveFolders(db, fragments[i], claimedFolders, disconnected);
          otherFailure := otherFailure || failure;
        }
      }
      failed := disconnected != {} || otherFailure || HasLeftovers(stores[db]);
      driveDisconnected := disconnected != {} && !otherFailure;
    }

    /* ---- Totals ---- */

    method DbTotals(fragments: seq<Fragment>) returns (bytes: nat, files: nat, reachable: Reach)
      requires DistinctDrives(fragments)
      modifies fileSystem`mounted
      ensures BaseReached(fragments, reachable) && fileSystem.mounted <= old(fileSystem.mounted)
      ensures UnreachedIsLost(fragments, reachable)
      ensures files == |ReachableFiles(fragments, reachable)| && bytes == Sum(ReachableFiles(fragments, reachable), Size())
    {
      bytes, files, reachable := 0, 0, {};
      for i := 0 to |fragments|
        invariant BaseReached(fragments[..i], reachable) && fileSystem.mounted <= old(fileSystem.mounted)
        invariant UnreachedIsLost(fragments[..i], reachable)
        invariant forall d :: d in reachable ==> exists k :: 0 <= k < i && fragments[k].drive == d
        invariant files == |ReachableFiles(fragments[..i], reachable)| && bytes == Sum(ReachableFiles(fragments[..i], reachable), Size())
      {
        var f := fragments[i];
        var connected := IsConnected(f.drive);
        ReachableNext(fragments, i, reachable, connected);
        if connected {
          SumAppend(ReachableFiles(fragments[..i], reachable), f.files, Size());
          reachable := reachable + {f.drive};
          var size := TotalSize(f.files);
          files, bytes := files + |f.files|, bytes + size;
        }
      }
      assert fragments[..|fragments|] == fragments;
    }

    static method TotalSize(files: seq<Stored>) returns (bytes: nat)
      ensures bytes == Sum(files, Size())
    {
      bytes := 0;
      for i := 0 to |files|
        invariant bytes == Sum(files[..i], Size())
      {
        assert files[..i + 1] == files[..i] + [files[i]];
        SumPush(files[..i], files[i], Size());
        bytes := bytes + files[i].size;
      }
      assert files[..|files|] == files;
    }

    /** What is announced before anything is removed, database by database. */
    method ReachableTotals(ids: seq<string>, parts: Parts) returns (bytes: nat, files: nat, reachable: Reaches)
      requires forall db :: db in parts ==> DistinctDrives(parts[db])
      modifies fileSystem`mounted
      ensures fileSystem.mounted <= old(fileSystem.mounted)
      ensures reachable.Keys == (set db | db in ids && db in parts) && forall db :: db in reachable ==> BaseReached(parts[db], reachable[db])
      ensures forall db :: db in reachable ==> UnreachedIsLost(parts[db], reachable[db])
      ensures var announced := Announced(ids, parts, reachable, {}); files == |announced| && bytes == Sum(announced, Size())
    {
      bytes, files, reachable := 0, 0, map[];
      for i := 0 to |ids|
        invariant fileSystem.mounted <= old(fileSystem.mounted)
        invariant reachable.Keys == set db | db in ids[..i] && db in parts
        invariant forall db :: db in reachable ==> UnreachedIsLost(parts[db], reachable[db])
        invariant forall db :: db in reachable ==> BaseReached(parts[db], reachable[db])
        invariant files == |Announced(ids[..i], parts, reachable, {})| && bytes == Sum(Announced(ids[..i], parts, reachable, {}), Size())
      {
        var db := ids[i];
        assert ids[..i + 1] == ids[..i] + [db];
        if db in parts && db !in reachable {
          ghost var mounted := fileSystem.mounted;
          var b, n, r := DbTotals(parts[db]);
          UnreachedStays(fileSystem.driveOf, fileSystem.folders, mounted, fileSystem.folders, fileSystem.mounted, parts, reachable);
          AnnounceOneMore(ids[..i], db, parts, reachable, r);
          reachable := reachable[db := r];
          bytes, files := bytes + b, files + n;
        } else {
          AnnouncedAsBefore(ids[..i], db, parts, reachable);
        }
      }
      assert ids[..|ids|] == ids;
    }

    /**
     The whole run over the databases that passed the checks. `parts` are their stored fragments
     and `succeeded` says how each attempt ended. What is reported is exactly what the attempts
     replay; a file that is no longer on disk is that of a record of an attempted database, and is
     claimed by no database outside of them; and a stored database counts as uninstalled only if
     for each record of a file, in any section, the file is not on disk or still claimed.
     */
    method UninstallDbs(ids: seq<string>, make: Packager)
      returns (uninstalled: set<string>, totalBytes: nat, totalFiles: nat, ghost parts: Parts, ghost reachable: Reaches,
               ghost succeeded: seq<bool>)
      requires events == [] && fileSystem.unlinked == [] && fileSystem.removedFolders == [] && Places(fileSystem, make)
      modifies this`stores, this`events, fileSystem
      ensures parts.Keys == (set db | db in ids && db in old(stores))
      ensures forall db :: db in parts ==> FragmentsOf(old(stores)[db], make, parts[db])
      ensures reachable.Keys == parts.Keys && |succeeded| == |ids|
      ensures var announced := Announced(ids, parts, reachable, {}); totalFiles == |announced| && totalBytes == Sum(announced, Size())
      ensures FilesOf(events) == Replay(ids, succeeded, parts, reachable, parts.Keys)
      ensures forall file :: file in fileSystem.unlinked ==> !KeptByOther(old(stores), ids, Files, Lower(file.rel))
      ensures forall folder :: folder in fileSystem.removedFolders ==> !KeptByOther(old(stores), ids, Folders, Lower(folder.rel))
      ensures forall db :: db in uninstalled && db in ids && db in old(stores) ==>
                && db !in stores && RecordsAccounted(events, db, old(stores)[db], make)
                && RecordsAreOff(fileSystem.files, old(stores), ids, old(stores)[db], make)
      ensures fileSystem.files <= old(fileSystem.files)
      ensures forall f :: f in old(fileSystem.files) && f !in fileSystem.files ==> IsUnclaimedRecord(old(stores), ids, make, f)
    {
      var fragments := StoredFragmentsByDb(stores, ids, make);
      parts := fragments;
      forall db | db in fragments ensures AllOn(fileSystem, fragments[db]) { FragmentsAreOn(fileSystem, stores[db], make, fragments[db]); }
      var b, n, r := ReachableTotals(ids, fragments);
      totalBytes, totalFiles, reachable := b, n, r;
      var attempted := set db | db in ids;
      var claimedFiles := Claimants(stores, attempted, Files, CandidatePaths(fragments, Files));
      var claimedFolders := Claimants(stores, attempted, Folders, CandidatePaths(fragments, Folders));
      uninstalled, succeeded := AttemptAll(ids, fragments, claimedFiles, claimedFolders, r);
      UninstalledAreOff(events, fileSystem.files, claimedFiles, old(stores), ids, parts, make, uninstalled);
      LostAreRecords(old(fileSystem.files), fileSystem.files, old(stores), ids, parts, make, claimedFiles);
      UnclaimedNotKept(fileSystem.unlinked, claimedFiles, CandidatePaths(parts, Files), old(stores), ids, Files);
      UnclaimedNotKept(fileSystem.removedFolders, claimedFolders, CandidatePaths(parts, Folders), old(stores), ids, Folders);
    }

    ghost predicate CanRemove(fragments: seq<Fragment>, reachable: Reach)
      reads fileSystem
    {
      BaseReached(fragments, reachable) && AllOn(fileSystem, fragments) && UnreachedIsLost(fragments, reachable)
    }

    /** Only unclaimed paths of the databases were unlinked or tried to be removed. */
    ghost predicate NoneClaimed(parts: Parts, claimedFiles: set<string>, claimedFolders: set<string>)
      reads fileSystem
    {
      && Unclaimed(fileSystem.unlinked, claimedFiles, CandidatePaths(parts, Files))
      && Unclaimed(fileSystem.removedFolders, claimedFolders, CandidatePaths(parts, Folders))
    }

    /** Every report so far is true of the disk. */
    ghost predicate AllTrue(claimed: set<string>)
      reads this, fileSystem
    {
      forall i :: 0 <= i < |events| ==> TrueNow(fileSystem.files, claimed, events[i])
    }

    /** What holds before and after each attempt. */
    ghost predicate Ready(parts: Parts, reachable: Reaches, claimedFiles: set<string>, claimedFolders: set<string>)
      reads this, fileSystem
    {
      && reachable.Keys == parts.Keys && (forall db :: db in parts ==> CanRemove(parts[db], reachable[db]))
      && NoneClaimed(parts, claimedFiles, claimedFolders) && AllTrue(claimedFiles)
    }

    /** Which databases count as uninstalled so far, and why. */
    ghost predicate Settled(parts: Parts, uninstalled: set<string>)
      reads this
    {
      forall db :: db in parts ==>
        && (db !in stores ==> db in uninstalled)
        && (db in uninstalled ==> db !in stores && FilesAccounted(events, db, parts[db]))
    }

    method AttemptAll(ids: seq<string>, parts: Parts, claimedFiles: set<string>, claimedFolders: set<string>,
                      reachable: Reaches)
      returns (uninstalled: set<string>, ghost succeeded: seq<bool>)
      requires events == [] && Ready(parts, reachable, claimedFiles, claimedFolders)
      requires parts.Keys == set db | db in ids && db in stores
      modifies this`stores, this`events, fileSystem
      ensures |succeeded| == |ids| && FilesOf(events) == Replay(ids, succeeded, parts, reachable, parts.Keys)
      ensures Ready(parts, reachable, claimedFiles, claimedFolders)
      ensures Settled(parts, uninstalled)
      ensures Shrunk(old(fileSystem.files), fileSystem.files, parts, claimedFiles)
    {
      uninstalled, succeeded := {}, [];
      for i := 0 to |ids|
        invariant |succeeded| == i && stores.Keys <= old(stores).Keys
        invariant stores.Keys * parts.Keys == LeftAfter(ids[..i], succeeded, parts.Keys)
        invariant FilesOf(events) == Replay(ids[..i], succeeded, parts, reachable, parts.Keys)
        invariant Ready(parts, reachable, claimedFiles, claimedFolders)
        invariant Settled(parts, uninstalled)
        invariant Shrunk(old(fileSystem.files), fileSystem.files, parts, claimedFiles)
      {
        var db := ids[i];
        assert ids[..i + 1] == ids[..i] + [db];
        ghost var disk := fileSystem.files;
        var ok := AttemptIfStored(db, parts, claimedFiles, claimedFolders, reachable);
        ShrunkMore(old(fileSystem.files), disk, fileSystem.files, parts, claimedFiles);
        LeftAppend(ids[..i], succeeded, db, ok, parts.Keys);
        ReplayAppend(ids[..i], succeeded, db, ok, parts, reachable, parts.Keys);
        if ok {
          uninstalled := uninstalled + {db};
        }
        succeeded := succeeded + [ok];
      }
      assert ids[..|ids|] == ids;
    }

    /** A database without stored content counts as uninstalled at once. */
    method AttemptIfStored(db: string, parts: Parts, claimedFiles: set<string>, claimedFolders: set<string>,
                           reachable: Reaches)
      returns (ok: bool)
      requires Ready(parts, reachable, claimedFiles, claimedFolders) && (db in stores ==> db in parts)
      modifies this`stores, this`events, fileSystem
      ensures Ready(parts, reachable, claimedFiles, claimedFolders)
      ensures Shrunk(old(fileSystem.files), fileSystem.files, parts, claimedFiles)
      ensures FilesOf(events) == FilesOf(old(events)) + if db in old(stores) then ReachableFiles(parts[db], reachable[db]) else []
      ensures forall d :: d in parts && FilesAccounted(old(events), d, parts[d]) ==> FilesAccounted(events, d, parts[d])
      ensures ok && db in old(stores) ==> FilesAccounted(events, db, parts[db])
      ensures stores.Keys == if ok then old(stores).Keys - {db} else old(stores).Keys
    {
      ok := true;
      if db in stores {
        ghost var folders, mounted := fileSystem.folders, fileSystem.mounted;
        ok := AttemptDb(db, parts, claimedFiles, claimedFolders, reachable[db]);
        UnreachedStays(fileSystem.driveOf, folders, mounted, fileSystem.folders, fileSystem.mounted, parts, reachable);
        AccountedStays(old(events), events, parts);
      }
    }

    /** One database of the run. */
    method AttemptDb(db: string, parts: Parts, claimedFiles: set<string>, claimedFolders: set<string>, reachable: Reach)
      returns (ok: bool)
      requires db in stores && db in parts && CanRemove(parts[db], reachable)
      requires NoneClaimed(parts, claimedFiles, claimedFolders) && AllTrue(claimedFiles)
      modifies this`stores, this`events, fileSystem
      ensures AllTrue(claimedFiles) && fileSystem.mounted <= old(fileSystem.mounted) && fileSystem.folders <= old(fileSystem.folders)
      ensures Shrunk(old(fileSystem.files), fileSystem.files, parts, claimedFiles)
      ensures old(events) <= events && FilesOf(events) == FilesOf(old(events)) + ReachableFiles(parts[db], reachable)
      ensures NoneClaimed(parts, claimedFiles, claimedFolders)
      ensures ok ==> FilesAccounted(events, db, parts[db])
      ensures stores.Keys == if ok then old(stores).Keys - {db} else old(stores).Keys
    {
      var failed, driveDisconnected := RemoveDb(db, parts[db], claimedFiles, claimedFolders, reachable);
      ok := !failed;
      ReplayEvents(old(events), events, db, parts[db], reachable);
      ReachableFilesIn(parts[db], reachable);
      FoldersAreCandidates(parts, db);
      ReachedPathsAreCandidates(parts, db, reachable);
      if ok {
        stores := stores - {db};
      }
    }
  }

  ghost predicate LostToSome(parts: Parts, claimed: set<string>, path: string) {
    exists db, f, x :: db in parts && f in parts[db] && x in f.files && x.full == path && Lower(x.rel) !in claimed
  }

  /** What is no longer on disk is of the databases' files. */
  ghost predicate Shrunk(disk0: set<string>, disk: set<string>, parts: Parts, claimed: set<string>) {
    disk <= disk0 && forall f :: f in disk0 && f !in disk ==> LostToSome(parts, claimed, f)
  }

  lemma ShrunkMore(disk0: set<string>, disk1: set<string>, disk2: set<string>, parts: Parts, claimed: set<string>)
    requires Shrunk(disk0, disk1, parts, claimed) && Shrunk(disk1, disk2, parts, claimed)
    ensures Shrunk(disk0, disk2, parts, claimed)
  {
  }

  /** The file of each record is not on disk, or a database outside the attempted ones claims it. */
  ghost predicate RecordsAreOff(disk: set<string>, stores: map<string, DbStore>, ids: seq<string>, s: DbStore, make: Packager) {
    forall drive: Option<string>, k :: (drive.Some? ==> drive.value in Drives(s)) && k in SectionAt(s, drive).files ==>
      var file := make(Files, drive, k, SectionAt(s, drive).files[k]);
      file.full !in disk || KeptByOther(stores, ids, Files, Lower(file.rel))
  }

  /** The path is that of a file which an attempted database records and no other one claims. */
  ghost predicate IsUnclaimedRecord(stores: map<string, DbStore>, ids: seq<string>, make: Packager, path: string) {
    exists db, drive: Option<string>, k ::
      && db in ids && db in stores && (drive.Some? ==> drive.value in Drives(stores[db])) && k in SectionAt(stores[db], drive).files
      && var file := make(Files, drive, k, SectionAt(stores[db], drive).files[k]);
         file.full == path && !KeptByOther(stores, ids, Files, Lower(file.rel))
  }

  ghost predicate RecordsOf(s: DbStore, kind: Kind, k: string) { k in s.base.Of(kind) || exists d :: OnDrive(s, kind, d, k) }

  /** A database that is not named, in whatever case, records the path in some case. */
  ghost predicate KeptByOther(stores: map<string, DbStore>, ids: seq<string>, kind: Kind, low: string) {
    exists other, k :: other in stores && (forall id :: id in ids ==> Lower(id) != Lower(other)) && RecordsOf(stores[other], kind, k) && Lower(k) == low
  }

  lemma ClaimsMean(s: DbStore, kind: Kind, low: string)
    ensures Claims(s, kind, low) <==> exists k :: RecordsOf(s, kind, k) && Lower(k) == low
  {
    if k :| k in s.base.Of(kind) && Lower(k) == low {
      assert RecordsOf(s, kind, k);
    }
    if d, k :| OnDrive(s, kind, d, k) && Lower(k) == low {
      assert RecordsOf(s, kind, k);
    }
  }

  lemma KeptIsClaimed(stores: map<string, DbStore>, ids: seq<string>, kind: Kind, low: string)
    ensures KeptByOther(stores, ids, kind, low) <==> ClaimedOutside(stores, (set db | db in ids), kind, low)
  {
    var attempted := set db | db in ids;
    if other, k :| other in stores && (forall id :: id in ids ==> Lower(id) != Lower(other)) && RecordsOf(stores[other], kind, k) && Lower(k) == low {
      ClaimsMean(stores[other], kind, low);
      assert Lower(other) !in LowerAll(attempted);
    }
    if other :| other in stores && Lower(other) !in LowerAll(attempted) && Claims(stores[other], kind, low) {
      ClaimsMean(stores[other], kind, low);
      forall id | id in ids ensures Lower(id) != Lower(other) { assert id in attempted; }
    }
  }

  lemma AccountedIsOff(events: seq<Event>, disk: set<string>, claimed: set<string>, candidates: set<string>,
                       stores: map<string, DbStore>, ids: seq<string>, db: string, make: Packager)
    requires db in stores && RecordsAccounted(events, db, stores[db], make)
    requires forall i :: 0 <= i < |events| ==> TrueNow(disk, claimed, events[i])
    requires ClaimsExactly(stores, (set db | db in ids), Files, candidates, claimed)
    ensures RecordsAreOff(disk, stores, ids, stores[db], make)
  {
    var s := stores[db];
    forall drive: Option<string>, k | (drive.Some? ==> drive.value in Drives(s)) && k in SectionAt(s, drive).files
      ensures var file := make(Files, drive, k, SectionAt(s, drive).files[k]);
              file.full !in disk || KeptByOther(stores, ids, Files, Lower(file.rel))
    {
      var file := make(Files, drive, k, SectionAt(s, drive).files[k]);
      KeptIsClaimed(stores, ids, Files, Lower(file.rel));
      assert ReportedGone(events, db, file);
      var i :| 0 <= i < |events| && events[i].db == db && events[i].file == file && Gone(events[i].outcome);
      assert TrueNow(disk, claimed, events[i]);
    }
  }

  lemma UninstalledAreOff(events: seq<Event>, disk: set<string>, claimed: set<string>, stores: map<string, DbStore>, ids: seq<string>,
                          parts: Parts, make: Packager, uninstalled: set<string>)
    requires parts.Keys == (set db | db in ids && db in stores) && forall db :: db in parts ==> FragmentsOf(stores[db], make, parts[db])
    requires forall db :: db in parts && db in uninstalled ==> FilesAccounted(events, db, parts[db])
    requires forall i :: 0 <= i < |events| ==> TrueNow(disk, claimed, events[i])
    requires ClaimsExactly(stores, (set db | db in ids), Files, CandidatePaths(parts, Files), claimed)
    ensures forall db :: db in uninstalled && db in ids && db in stores ==>
              RecordsAccounted(events, db, stores[db], make) && RecordsAreOff(disk, stores, ids, stores[db], make)
  {
    forall db | db in uninstalled && db in ids && db in stores
      ensures RecordsAccounted(events, db, stores[db], make) && RecordsAreOff(disk, stores, ids, stores[db], make)
    {
      assert db in parts;
      AccountedFilesAreRecords(events, db, stores[db], make, parts[db]);
      AccountedIsOff(events, disk, claimed, CandidatePaths(parts, Files), stores, ids, db, make);
    }
  }

  lemma LostAreRecords(before: set<string>, disk: set<string>, stores: map<string, DbStore>, ids: seq<string>, parts: Parts, make: Packager,
                       claimed: set<string>)
    requires parts.Keys == (set db | db in ids && db in stores) && forall db :: db in parts ==> FragmentsOf(stores[db], make, parts[db])
    requires ClaimsExactly(stores, (set db | db in ids), Files, CandidatePaths(parts, Files), claimed)
    requires Shrunk(before, disk, parts, claimed)
    ensures forall f :: f in before && f !in disk ==> IsUnclaimedRecord(stores, ids, make, f)
  {
    forall f | f in before && f !in disk
      ensures IsUnclaimedRecord(stores, ids, make, f)
    {
      LostIsRecord(stores, ids, parts, make, claimed, f);
    }
  }

  lemma UnclaimedNotKept(paths: seq<Stored>, claimed: set<string>, candidates: set<string>, stores: map<string, DbStore>, ids: seq<string>, kind: Kind)
    requires Unclaimed(paths, claimed, candidates) && ClaimsExactly(stores, (set db | db in ids), kind, candidates, claimed)
    ensures forall x :: x in paths ==> !KeptByOther(stores, ids, kind, Lower(x.rel))
  {
    forall x | x in paths
      ensures !KeptByOther(stores, ids, kind, Lower(x.rel))
    {
      var k :| 0 <= k < |paths| && paths[k] == x;
      KeptIsClaimed(stores, ids, kind, Lower(x.rel));
    }
  }

  lemma LostIsRecord(stores: map<string, DbStore>, ids: seq<string>, parts: Parts, make: Packager, claimed: set<string>, path: string)
    requires parts.Keys == (set db | db in ids && db in stores) && forall db :: db in parts ==> FragmentsOf(stores[db], make, parts[db])
    requires ClaimsExactly(stores, (set db | db in ids), Files, CandidatePaths(parts, Files), claimed)
    requires LostToSome(parts, claimed, path)
    ensures IsUnclaimedRecord(stores, ids, make, path)
  {
    var db, f, x :| db in parts && f in parts[db] && x in f.files && x.full == path && Lower(x.rel) !in claimed;
    assert IsFragmentOf(stores[db], make, f);
    var k :| k in SectionAt(stores[db], f.drive).files && x == make(Files, f.drive, k, SectionAt(stores[db], f.drive).files[k]);
    assert Lower(x.rel) in CandidatePaths(parts, Files);
    KeptIsClaimed(stores, ids, Files, Lower(x.rel));
  }

  ghost predicate Unclaimed(unlinked: seq<Stored>, claimed: set<string>, candidates: set<string>) {
    forall k :: 0 <= k < |unlinked| ==> Lower(unlinked[k].rel) in candidates && Lower(unlinked[k].rel) !in claimed
  }

  /* ---- Totals announced and reports made ---- */

  function Size(): Stored -> nat { (f: Stored) => f.size }

  lemma {:induction false} ReachableAppend(xs: seq<Fragment>, f: Fragment, reachable: Reach)
    ensures ReachableFiles(xs + [f], reachable) == ReachableFiles(xs, reachable) + if f.drive in reachable then f.files else []
  {
    if xs == [] {
      assert xs + [f] == [f] && [f][1..] == [];
    } else {
      assert (xs + [f])[1..] == xs[1..] + [f];
      ReachableAppend(xs[1..], f, reachable);
    }
  }

  lemma {:induction false} ReachableSame(xs: seq<Fragment>, reachable: Reach, d: Option<string>)
    requires forall f :: f in xs ==> f.drive != d
    ensures ReachableFiles(xs, reachable + {d}) == ReachableFiles(xs, reachable)
  {
    if xs != [] {
      assert xs[0] in xs;
      ReachableSame(xs[1..], reachable, d);
    }
  }

  lemma ReachableNext(fragments: seq<Fragment>, i: nat, reachable: Reach, connected: bool)
    requires DistinctDrives(fragments) && i < |fragments|
    requires forall d :: d in reachable ==> exists k :: 0 <= k < i && fragments[k].drive == d
    ensures fragments[..i + 1] == fragments[..i] + [fragments[i]]
    ensures ReachableFiles(fragments[..i + 1], if connected then reachable + {fragments[i].drive} else reachable)
         == if connected then ReachableFiles(fragments[..i], reachable) + fragments[i].files else ReachableFiles(fragments[..i], reachable)
  {
    var f := fragments[i];
    ReachableSame(fragments[..i], reachable, f.drive);
    ReachableAppend(fragments[..i], f, reachable);
    ReachableAppend(fragments[..i], f, reachable + {f.drive});
  }

  /** The files of each database once, however often it is named. */
  function Announced(ids: seq<string>, parts: Parts, reachable: Reaches, seen: set<string>): seq<Stored>
    decreases |ids|
  {
    if ids == [] then []
    else (if ids[0] in parts && ids[0] in reachable && ids[0] !in seen then ReachableFiles(parts[ids[0]], reachable[ids[0]]) else [])
         + Announced(ids[1..], parts, reachable, seen + {ids[0]})
  }

  /** The files of a database each time it is attempted and still stored. */
  function Replay(ids: seq<string>, succeeded: seq<bool>, parts: Parts, reachable: Reaches,
                  stored: set<string>): seq<Stored>
    requires |ids| == |succeeded|
    decreases |ids|
  {
    if ids == [] then []
    else (if ids[0] in stored && ids[0] in parts && ids[0] in reachable then ReachableFiles(parts[ids[0]], reachable[ids[0]]) else [])
         + Replay(ids[1..], succeeded[1..], parts, reachable, if succeeded[0] then stored - {ids[0]} else stored)
  }

  function LeftAfter(ids: seq<string>, succeeded: seq<bool>, stored: set<string>): set<string>
    requires |ids| == |succeeded|
    decreases |ids|
  {
    if ids == [] then stored else LeftAfter(ids[1..], succeeded[1..], if succeeded[0] then stored - {ids[0]} else stored)
  }

  lemma {:induction false} LeftAppend(ids: seq<string>, succeeded: seq<bool>, db: string, ok: bool, stored: set<string>)
    requires |ids| == |succeeded|
    ensures LeftAfter(ids + [db], succeeded + [ok], stored) ==
            if ok then LeftAfter(ids, succeeded, stored) - {db} else LeftAfter(ids, succeeded, stored)
    decreases |ids|
  {
    if ids == [] {
      assert ids + [db] == [db] && [db][1..] == [] && succeeded + [ok] == [ok] && [ok][1..] == [];
    } else {
      assert (ids + [db])[1..] == ids[1..] + [db] && (succeeded + [ok])[1..] == succeeded[1..] + [ok];
      LeftAppend(ids[1..], succeeded[1..], db, ok, if succeeded[0] then stored - {ids[0]} else stored);
    }
  }

  lemma {:induction false} ReplayAppend(ids: seq<string>, succeeded: seq<bool>, db: string, ok: bool, parts: Parts,
                                        reachable: Reaches, stored: set<string>)
    requires |ids| == |succeeded|
    ensures var left := LeftAfter(ids, succeeded, stored);
            Replay(ids + [db], succeeded + [ok], parts, reachable, stored)
              == Replay(ids, succeeded, parts, reachable, stored)
                 + if db in left && db in parts && db in reachable then ReachableFiles(parts[db], reachable[db]) else []
    decreases |ids|
  {
    if ids == [] {
      assert ids + [db] == [db] && [db][1..] == [] && succeeded + [ok] == [ok] && [ok][1..] == [];
    } else {
      var stored' := if succeeded[0] then stored - {ids[0]} else stored;
      var head := if ids[0] in stored && ids[0] in parts && ids[0] in reachable then ReachableFiles(parts[ids[0]], reachable[ids[0]]) else [];
      var left := LeftAfter(ids, succeeded, stored);
      var last := if db in left && db in parts && db in reachable then ReachableFiles(parts[db], reachable[db]) else [];
      ReplayAppend(ids[1..], succeeded[1..], db, ok, parts, reachable, stored');
      calc {
        Replay(ids + [db], succeeded + [ok], parts, reachable, stored);
        { assert (ids + [db])[1..] == ids[1..] + [db] && (succeeded + [ok])[1..] == succeeded[1..] + [ok]; }
        head + Replay(ids[1..] + [db], succeeded[1..] + [ok], parts, reachable, stored');
        head + (Replay(ids[1..], succeeded[1..], parts, reachable, stored') + last);
        (head + Replay(ids[1..], succeeded[1..], parts, reachable, stored')) + last;
        Replay(ids, succeeded, parts, reachable, stored) + last;
      }
    }
  }

  lemma {:induction false} AnnouncedAppend(ids: seq<string>, db: string, parts: Parts, reachable: Reaches, seen: set<string>)
    ensures Announced(ids + [db], parts, reachable, seen)
         == Announced(ids, parts, reachable, seen)
            + if db in parts && db in reachable && db !in seen && db !in ids then ReachableFiles(parts[db], reachable[db]) else []
    decreases |ids|
  {
    if ids == [] {
      assert ids + [db] == [db] && [db][1..] == [];
    } else {
      assert (ids + [db])[1..] == ids[1..] + [db];
      AnnouncedAppend(ids[1..], db, parts, reachable, seen + {ids[0]});
    }
  }

  lemma {:induction false} AnnouncedSame(ids: seq<string>, parts: Parts, reachable: Reaches, seen: set<string>,
                                         db: string, r: Reach)
    requires db !in ids
    ensures Announced(ids, parts, reachable[db := r], seen) == Announced(ids, parts, reachable, seen)
    decreases |ids|
  {
    if ids != [] {
      AnnouncedSame(ids[1..], parts, reachable, seen + {ids[0]}, db, r);
    }
  }

  lemma AnnounceOneMore(ids: seq<string>, db: string, parts: Parts, reachable: Reaches, r: Reach)
    requires db !in ids && db in parts
    ensures var more := Announced(ids + [db], parts, reachable[db := r], {});
            && |more| == |Announced(ids, parts, reachable, {})| + |ReachableFiles(parts[db], r)|
            && Sum(more, Size()) == Sum(Announced(ids, parts, reachable, {}), Size()) + Sum(ReachableFiles(parts[db], r), Size())
  {
    AnnouncedSame(ids, parts, reachable, {}, db, r);
    AnnouncedAppend(ids, db, parts, reachable[db := r], {});
    SumAppend(Announced(ids, parts, reachable, {}), ReachableFiles(parts[db], r), Size());
  }

  lemma AnnouncedAsBefore(ids: seq<string>, db: string, parts: Parts, reachable: Reaches)
    requires db !in parts || db in ids
    ensures Announced(ids + [db], parts, reachable, {}) == Announced(ids, parts, reachable, {})
  {
    AnnouncedAppend(ids, db, parts, reachable, {});
    assert Announced(ids, parts, reachable, {}) + [] == Announced(ids, parts, reachable, {});
  }

  /** The files that are reported again because a database is attempted again after it failed. */
  function ReportedAgain(ids: seq<string>, succeeded: seq<bool>, parts: Parts, reachable: Reaches,
                         stored: set<string>, seen: set<string>): seq<Stored>
    requires |ids| == |succeeded|
    decreases |ids|
  {
    if ids == [] then []
    else (if ids[0] in stored && ids[0] in seen && ids[0] in parts && ids[0] in reachable
          then ReachableFiles(parts[ids[0]], reachable[ids[0]]) else [])
         + ReportedAgain(ids[1..], succeeded[1..], parts, reachable, if succeeded[0] then stored - {ids[0]} else stored, seen + {ids[0]})
  }

  /** Files and bytes reported are those announced plus exactly those reported again. */
  lemma {:induction false} ReportsAreAnnouncedPlusAgain(ids: seq<string>, succeeded: seq<bool>, parts: Parts,
                                                        reachable: Reaches, stored: set<string>, seen: set<string>, g: Stored -> nat)
    requires |ids| == |succeeded| && parts.Keys - seen <= stored
    ensures Sum(Replay(ids, succeeded, parts, reachable, stored), g)
         == Sum(Announced(ids, parts, reachable, seen), g) + Sum(ReportedAgain(ids, succeeded, parts, reachable, stored, seen), g)
    decreases |ids|
  {
    if ids != [] {
      var stored', seen' := if succeeded[0] then stored - {ids[0]} else stored, seen + {ids[0]};
      ReportsAreAnnouncedPlusAgain(ids[1..], succeeded[1..], parts, reachable, stored', seen', g);
      var files := if ids[0] in parts && ids[0] in reachable then ReachableFiles(parts[ids[0]], reachable[ids[0]]) else [];
      SumAppend(files, Replay(ids[1..], succeeded[1..], parts, reachable, stored'), g);
      SumAppend(files, Announced(ids[1..], parts, reachable, seen'), g);
      SumAppend(files, ReportedAgain(ids[1..], succeeded[1..], parts, reachable, stored', seen'), g);
      assert forall xs: seq<Stored> :: [] + xs == xs;
    }
  }

  ghost predicate Distinct(ids: seq<string>) { forall i, j :: 0 <= i < j < |ids| ==> ids[i] != ids[j] }

  /** With each database named once, what is reported is exactly what was announced, in order. */
  lemma {:induction false} DistinctReportsAreAnnounced(ids: seq<string>, succeeded: seq<bool>, parts: Parts,
                                                       reachable: Reaches, stored: set<string>, seen: set<string>)
    requires |ids| == |succeeded| && Distinct(ids) && parts.Keys - seen <= stored && forall db :: db in ids ==> db !in seen
    ensures Replay(ids, succeeded, parts, reachable, stored) == Announced(ids, parts, reachable, seen)
    decreases |ids|
  {
    if ids != [] {
      assert ids[0] in ids;
      forall db | db in ids[1..] ensures db != ids[0] {}
      DistinctReportsAreAnnounced(ids[1..], succeeded[1..], parts, reachable, if succeeded[0] then stored - {ids[0]} else stored, seen + {ids[0]});
    }
  }

  /** A database named twice whose first attempt fails is announced once and reported twice. */
  lemma TwiceNamedIsReportedTwice(db: string, fragment: Fragment, ok: bool)
    requires fragment.drive.None? && fragment.files != []
    ensures var parts, reachable := map[db := [fragment]], map[db := {fragment.drive}];
            && |Announced([db, db], parts, reachable, {})| == |fragment.files|
            && |Replay([db, db], [false, ok], parts, reachable, {db})| == 2 * |fragment.files|
  {
    var parts, reachable := map[db := [fragment]], map[db := {fragment.drive}];
    assert [fragment][1..] == [] && ReachableFiles([fragment], {fragment.drive}) == fragment.files + [];
    var files := ReachableFiles([fragment], {fragment.drive});
    assert [db, db][1..] == [db] && [db][1..] == [] && [false, ok][1..] == [ok] && [ok][1..] == [];
    assert Announced([], parts, reachable, {db} + {db}) == [] && Replay([], [], parts, reachable, if ok then {} else {db}) == [];
    assert Announced([db], parts, reachable, {db}) == [];
    var none: set<string> := {};
    assert none + {db} == {db};
    assert Announced([db, db], parts, reachable, {}) == files + [];
    assert Replay([db], [ok], parts, reachable, {db}) == files + [];
    assert Replay([db, db], [false, ok], parts, reachable, {db}) == files + Replay([db], [ok], parts, reachable, {db});
  }

  /* ---- Accounts ---- */

  /** Every file of the database has a report that lets its record go. */
  ghost predicate FilesAccounted(events: seq<Event>, db: string, fragments: seq<Fragment>) {
    forall f, file :: f in fragments && file in f.files ==> ReportedGone(events, db, file)
  }

  function CandidatePaths(parts: Parts, kind: Kind): set<string> {
    set db, f, file | db in parts && f in parts[db] && file in (if kind.Files? then f.files else f.folders) :: Lower(file.rel)
  }

  lemma {:induction false} ReachableFilesIn(fragments: seq<Fragment>, reachable: Reach)
    ensures forall file :: file in ReachableFiles(fragments, reachable) <==>
              exists f :: f in fragments && f.drive in reachable && file in f.files
  {
    if fragments != [] {
      ReachableFilesIn(fragments[1..], reachable);
      assert fragments == [fragments[0]] + fragments[1..];
    }
  }

  lemma FoldersAreCandidates(parts: Parts, db: string)
    requires db in parts
    ensures forall folder :: IsFolderOf(parts[db], folder) ==> Lower(folder.rel) in CandidatePaths(parts, Folders)
  {
    forall folder | IsFolderOf(parts[db], folder)
      ensures Lower(folder.rel) in CandidatePaths(parts, Folders)
    {
      var f :| f in parts[db] && folder in f.folders;
      assert folder in (if Folders.Files? then f.files else f.folders);
    }
  }

  lemma ReachedPathsAreCandidates(parts: Parts, db: string, reachable: Reach)
    requires db in parts
    ensures forall file :: file in ReachableFiles(parts[db], reachable) ==> Lower(file.rel) in CandidatePaths(parts, Files)
  {
    ReachableFilesIn(parts[db], reachable);
    forall file | file in ReachableFiles(parts[db], reachable)
      ensures Lower(file.rel) in CandidatePaths(parts, Files)
    {
      var f :| f in parts[db] && f.drive in reachable && file in f.files;
    }
  }

  lemma ReplayEvents(before: seq<Event>, later: seq<Event>, db: string, fragments: seq<Fragment>, reachable: Reach)
    requires before <= later && FilesOf(later[|before|..]) == ReachableFiles(fragments, reachable)
    requires forall i :: |before| <= i < |later| ==> later[i].db == db
    ensures FilesOf(later) == FilesOf(before) + ReachableFiles(fragments, reachable)
    ensures (AllReached(fragments, reachable) && forall i :: |before| <= i < |later| ==> Gone(later[i].outcome)) ==>
              FilesAccounted(later, db, fragments)
  {
    ReachableFilesIn(fragments, reachable);
    if AllReached(fragments, reachable) && (forall i :: |before| <= i < |later| ==> Gone(later[i].outcome)) {
      forall f, file | f in fragments && file in f.files
        ensures ReportedGone(later, db, file)
      {
        assert file in FilesOf(later[|before|..]);
        var k :| 0 <= k < |FilesOf(later[|before|..])| && FilesOf(later[|before|..])[k] == file;
        assert later[|before| + k].file == file;
      }
    }
  }

  lemma AccountedStays(before: seq<Event>, later: seq<Event>, parts: Parts)
    requires before <= later
    ensures forall db :: db in parts && FilesAccounted(before, db, parts[db]) ==> FilesAccounted(later, db, parts[db])
  {
    forall db, file | ReportedGone(before, db, file)
      ensures ReportedGone(later, db, file)
    {
      var i :| 0 <= i < |before| && before[i].db == db && before[i].file == file && Gone(before[i].outcome);
      assert later[i] == before[i];
    }
  }

  lemma AddedFiles(start: seq<Event>, before: seq<Event>, later: seq<Event>)
    requires start <= before <= later
    ensures FilesOf(later[|start|..]) == FilesOf(before[|start|..]) + FilesOf(later[|before|..])
  {
  }
}
