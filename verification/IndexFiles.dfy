/**
 Deciding what happens to the files of an index (src/downloader/jobs/process_db_index_worker.py):
 which ones are downloaded, which are kept without looking, and which are kept after a look.
 */
module IndexFiles {
  import opened Prelude
  import opened Store

  /**
   A file of the index and where it goes; `drive` is set for an external one, `member` is its name
   in an archive, `tmp` and `backup` are the temporary and the backup path that its description
   names, if any, on its drive.
   */
  datatype Pkg = Pkg(
    path: string, full: string, drive: Option<string>, hash: string, size: nat, overwrite: bool,
    member: string, tmp: Option<string>, backup: Option<string>)

  /** What is on disk: the hash of the content of every file. */
  type Disk = map<string, string>

  function HashOn(d: Disk, p: Pkg): string { if p.full in d then d[p.full] else "" }

  function RecordedHash(entries: map<string, Desc>, path: string): Option<string> {
    if path in entries && "hash" in entries[path] && entries[path]["hash"].Text? then Some(entries[path]["hash"].text) else None
  }

  /** The store's record of the file, in the section it belongs to, is not of the declared content. */
  predicate Unrecorded(s: DbStore, p: Pkg) {
    RecordedHash(if p.drive.None? then s.base.files else Section(s, p.drive.value).files, p.path) != Some(p.hash)
  }

  function OnDisk(d: Disk): Pkg -> bool { (p: Pkg) => p.full in d }
  function Missing(d: Disk): Pkg -> bool { (p: Pkg) => p.full !in d }
  function MustLook(s: DbStore, d: Disk): Pkg -> bool { (p: Pkg) => p.full in d && Unrecorded(s, p) }
  function Trusted(s: DbStore, d: Disk): Pkg -> bool { (p: Pkg) => p.full in d && !Unrecorded(s, p) }
  function Good(d: Disk): Pkg -> bool { (p: Pkg) => HashOn(d, p) == p.hash }
  function Bad(d: Disk): Pkg -> bool { (p: Pkg) => HashOn(d, p) != p.hash }
  function Left(d: Disk): Pkg -> bool { (p: Pkg) => HashOn(d, p) != p.hash && !p.overwrite }
  function Outdated(d: Disk): Pkg -> bool { (p: Pkg) => HashOn(d, p) != p.hash && p.overwrite }

  method AreFiles(d: Disk, files: seq<Pkg>) returns (existing: seq<Pkg>, missing: seq<Pkg>)
    ensures existing == Keep(files, OnDisk(d)) && missing == Keep(files, Missing(d))
  {
    existing, missing := [], [];
    for i := 0 to |files|
      invariant existing == Keep(files[..i], OnDisk(d)) && missing == Keep(files[..i], Missing(d))
    {
      assert files[..i + 1] == files[..i] + [files[i]];
      KeepPush(files[..i], files[i], OnDisk(d));
      KeepPush(files[..i], files[i], Missing(d));
      if files[i].full in d {
        existing := existing + [files[i]];
      } else {
        missing := missing + [files[i]];
      }
    }
    assert files[..|files|] == files;
  }

  /** Looks only at what the store does not vouch for. */
  method ProcessCheckFilePackages(s: DbStore, d: Disk, files: seq<Pkg>) returns (missing: seq<Pkg>, look: seq<Pkg>, trusted: seq<Pkg>)
    ensures missing == Keep(files, Missing(d)) && look == Keep(files, MustLook(s, d)) && trusted == Keep(files, Trusted(s, d))
  {
    var existing;
    existing, missing := AreFiles(d, files);
    look, trusted := [], [];
    var unrecorded := (p: Pkg) => Unrecorded(s, p);
    var recorded := (p: Pkg) => !Unrecorded(s, p);
    for i := 0 to |existing|
      invariant look == Keep(existing[..i], unrecorded) && trusted == Keep(existing[..i], recorded)
    {
      assert existing[..i + 1] == existing[..i] + [existing[i]];
      KeepPush(existing[..i], existing[i], unrecorded);
      KeepPush(existing[..i], existing[i], recorded);
      if Unrecorded(s, existing[i]) {
        look := look + [existing[i]];
      } else {
        trusted := trusted + [existing[i]];
      }
    }
    assert existing[..|existing|] == existing;
    KeepTwice(files, OnDisk(d), unrecorded, MustLook(s, d));
    KeepTwice(files, OnDisk(d), recorded, Trusted(s, d));
  }

  /** A good file stays; a bad one is replaced unless it must not be overwritten. */
  method ProcessValidatePackages(d: Disk, look: seq<Pkg>) returns (present: seq<Pkg>, skipped: seq<Pkg>, outdated: seq<Pkg>)
    ensures present == Keep(look, Good(d)) && skipped == Keep(look, Left(d)) && outdated == Keep(look, Outdated(d))
  {
    present, skipped, outdated := [], [], [];
    for i := 0 to |look|
      invariant present == Keep(look[..i], Good(d)) && skipped == Keep(look[..i], Left(d)) && outdated == Keep(look[..i], Outdated(d))
    {
      var p := look[i];
      assert look[..i + 1] == look[..i] + [p];
      KeepPush(look[..i], p, Good(d));
      KeepPush(look[..i], p, Left(d));
      KeepPush(look[..i], p, Outdated(d));
      if HashOn(d, p) == p.hash {
        present := present + [p];
      } else if !p.overwrite {
        if HashOn(d, p) != p.hash {
          skipped := skipped + [p];
        } else {
          present := present + [p];
        }
      } else {
        outdated := outdated + [p];
      }
    }
    assert look[..|look|] == look;
  }

  method VerifyHashes(d: Disk, trusted: seq<Pkg>) returns (verified: seq<Pkg>, failed: seq<Pkg>)
    ensures verified == Keep(trusted, Good(d)) && failed == Keep(trusted, Bad(d))
  {
    verified, failed := [], [];
    for i := 0 to |trusted|
      invariant verified == Keep(trusted[..i], Good(d)) && failed == Keep(trusted[..i], Bad(d))
    {
      var p := trusted[i];
      assert trusted[..i + 1] == trusted[..i] + [p];
      KeepPush(trusted[..i], p, Good(d));
      KeepPush(trusted[..i], p, Bad(d));
      if HashOn(d, p) == p.hash {
        verified := verified + [p];
      } else {
        failed := failed + [p];
      }
    }
    assert trusted[..|trusted|] == trusted;
  }

  /** What becomes of each file; `go` says that space and folders could be had. */
  datatype Plan = Plan(missing: seq<Pkg>, present: seq<Pkg>, skipped: seq<Pkg>, trusted: seq<Pkg>, update: seq<Pkg>, go: bool)

  /** What the caller installs: the missing files and then the ones to be replaced, or nothing. */
  function ToInstall(plan: Plan): seq<Pkg> { if plan.go then plan.missing + plan.update else [] }

  /** Where each file of the index ends up; `verify` is the integrity check of all files. */
  ghost predicate Planned(s: DbStore, d: Disk, files: seq<Pkg>, verify: bool, plan: Plan) {
    && (forall p :: p in plan.missing <==> p in files && p.full !in d)
    && (forall p :: p in plan.trusted <==> p in files && p.full in d && !Unrecorded(s, p))
    && (forall p :: p in plan.present <==> p in files && p.full in d && Unrecorded(s, p) && HashOn(d, p) == p.hash)
    && (forall p :: p in plan.skipped <==>
          p in files && p.full in d && Unrecorded(s, p) && HashOn(d, p) != p.hash && !p.overwrite)
    && (forall p :: p in plan.update <==>
          p in files && p.full in d && HashOn(d, p) != p.hash && if Unrecorded(s, p) then p.overwrite else verify)
  }

  /**
   The whole sequence. `fits` is the answer of the space reservation, which is asked only when
   something is to be installed, and `foldersMade` says whether all folders could be created.
   */
  method MainSequence(s: DbStore, d: Disk, files: seq<Pkg>, verify: bool, fits: bool, foldersMade: bool) returns (plan: Plan)
    ensures Planned(s, d, files, verify, plan)
    ensures plan.go <==> foldersMade && (fits || plan.missing + plan.update == [])
  {
    var missing, look, trusted := ProcessCheckFilePackages(s, d, files);
    var present, skipped, update := ProcessValidatePackages(d, look);
    if verify {
      var verified, failed := VerifyHashes(d, trusted);
      update := update + failed;
    }
    var go := true;
    if |missing| > 0 || |update| > 0 {
      go := fits;
    }
    if !foldersMade {
      go := false;
    }
    plan := Plan(missing, present, skipped, trusted, update, go);
    KeptIsPlanned(s, d, files, verify, plan);
  }

  lemma KeptIsPlanned(s: DbStore, d: Disk, files: seq<Pkg>, verify: bool, plan: Plan)
    requires plan.missing == Keep(files, Missing(d)) && plan.trusted == Keep(files, Trusted(s, d))
    requires var look := Keep(files, MustLook(s, d));
             && plan.present == Keep(look, Good(d)) && plan.skipped == Keep(look, Left(d))
             && plan.update == Keep(look, Outdated(d)) + if verify then Keep(plan.trusted, Bad(d)) else []
    ensures Planned(s, d, files, verify, plan)
  {
    var look := Keep(files, MustLook(s, d));
    KeepIn(files, Missing(d));
    KeepIn(files, MustLook(s, d));
    KeepIn(files, Trusted(s, d));
    KeepIn(look, Good(d));
    KeepIn(look, Left(d));
    KeepIn(look, Outdated(d));
    KeepIn(plan.trusted, Bad(d));
  }

  /** The store vouches for a file exactly when the section the file belongs to records it with the declared hash. */
  lemma VouchedForIff(s: DbStore, p: Pkg)
    ensures !Unrecorded(s, p) <==>
              var entry := At(s, Files, p.drive, p.path);
              entry.Some? && "hash" in entry.value && entry.value["hash"] == Text(p.hash)
  {
  }

  /**
   No file of the index is forgotten, none is installed whose content is right, and when space and
   folders could be had, a file that is left alone although its content is not right is either
   vouched for by the store or not to be overwritten.
   */
  lemma PlanIsSound(s: DbStore, d: Disk, files: seq<Pkg>, verify: bool, plan: Plan, p: Pkg)
    requires Planned(s, d, files, verify, plan) && p in files
    ensures p in plan.missing || p in plan.present || p in plan.skipped || p in plan.trusted || p in plan.update
    ensures p in ToInstall(plan) ==> plan.go && (p.full !in d || HashOn(d, p) != p.hash)
    ensures plan.go && p !in ToInstall(plan) ==>
              p.full in d && (HashOn(d, p) == p.hash || (!Unrecorded(s, p) && !verify) || (Unrecorded(s, p) && !p.overwrite))
    ensures !plan.go ==> ToInstall(plan) == []
  {
  }
}
