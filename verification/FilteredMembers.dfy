/**
 What a whole extraction leads to for the files of the archive that the user's filter leaves out
 (src/downloader/jobs/open_zip_contents_worker.py:82-91 and src/downloader/online_importer.py):
 they are extracted with everything else and then queued for removal, without a drive.
 */
module FilteredMembers {
  import opened Prelude
  import opened Store
  import opened Removal
  import opened RemovalQueue

  /** A filtered file: its path and the files that it goes with. */
  datatype Filtered = Filtered(rel: string, tangles: seq<string>)

  function FilteredPkg(f: Filtered): Pkg { Pkg(f.rel, f.rel, false, None, f.tangles) }

  /** Where the file system looks for a path. */
  function Resolved(basePath: string, path: string): string {
    if path != [] && path[0] == '/' then path else Join(basePath, path)
  }

  method FilesToRemove(filtered: seq<Filtered>) returns (files: seq<Pkg>)
    ensures |files| == |filtered| && forall i :: 0 <= i < |files| ==> files[i] == FilteredPkg(filtered[i])
  {
    files := [];
    for i := 0 to |filtered|
      invariant |files| == i && forall k :: 0 <= k < i ==> files[k] == FilteredPkg(filtered[k])
    {
      files := files + [FilteredPkg(filtered[i])];
    }
  }

  /** The path is queued, in one spelling and as this filtered file only. */
  ghost predicate OnlyFiltered(queued: seq<Queued>, f: Filtered) {
    && (exists i :: 0 <= i < |queued| && queued[i].pkg.rel == f.rel)
    && (forall i :: 0 <= i < |queued| && Lower(queued[i].pkg.rel) == Lower(f.rel) ==> queued[i].pkg == FilteredPkg(f))
  }

  /**
   A filtered file of a dumped archive is unlinked below the base path exactly when it was not
   processed in this run, no stored database claims it without dropping it, and it is not entangled
   with a failed file. Whether it was on disk before, and whose it was, is not asked.
   */
  lemma FilteredFileGoesIff(x: Context, stores: map<string, Wrapper>, queued: seq<Queued>, queue: seq<Entry>, processedInRun: set<string>,
                            protected: set<string>, f: Filtered)
    requires OnlyFiltered(queued, f)
    requires QueuedFrom(queued, queue) && AllRunning(stores, queue) && Protects(stores, queue, processedInRun, protected)
    ensures Unlink(f.rel, f.rel) in ConsumeAll(x, Removals(stores, protected, {}, []), queue).unlinks <==>
              && Lower(f.rel) !in LowerAll(processedInRun) && !ClaimedOutside(stores, queued, Lower(f.rel))
              && !IsEntangledWith(FilteredPkg(f), x.failed)
  {
    FirstOfFiltered(queued, f);
    assert GoesFirst(x, queued, f.rel) <==> !IsEntangledWith(FilteredPkg(f), x.failed);
    PlaceGoesIff(x, stores, queued, queue, processedInRun, protected, Unlink(f.rel, f.rel));
  }

  lemma FirstOfFiltered(queued: seq<Queued>, f: Filtered)
    requires OnlyFiltered(queued, f)
    ensures forall rel :: Lower(rel) == Lower(f.rel) ==> First(queued, rel) == if rel == f.rel then Some(FilteredPkg(f)) else None
  {
    forall rel | Lower(rel) == Lower(f.rel)
      ensures First(queued, rel) == if rel == f.rel then Some(FilteredPkg(f)) else None
    {
      FirstIsQueued(queued, rel);
      FirstComesFrom(queued, rel);
    }
  }

  lemma {:induction false} FirstComesFrom(queued: seq<Queued>, rel: string)
    ensures First(queued, rel).Some? ==> exists i :: 0 <= i < |queued| && queued[i].pkg == First(queued, rel).value
  {
    if queued != [] && queued[0].pkg.rel != rel {
      FirstComesFrom(queued[1..], rel);
      if First(queued, rel).Some? {
        var i :| 0 <= i < |queued[1..]| && queued[1..][i].pkg == First(queued, rel).value;
        assert queued[i + 1] == queued[1..][i];
      }
    }
  }

  /** A member of an archive that is dumped below the base path is what the removal finds, and on another drive it is not. */
  lemma RemovalFindsTheMember(basePath: string, root: string, folder: string, name: string)
    requires folder != [] && folder[0] != '/'
    ensures Resolved(basePath, Join(folder, name)) == Join(Join(root, folder), name) <==> root == basePath
  {
    var rel := Join(folder, name);
    assert rel[0] == folder[0];
    assert Resolved(basePath, rel) == basePath + ("/" + rel);
    assert Join(Join(root, folder), name) == root + ("/" + rel);
    assert |basePath + ("/" + rel)| == |basePath| + |"/" + rel|;
    if root + ("/" + rel) == basePath + ("/" + rel) {
      assert root == (root + ("/" + rel))[..|root|];
    }
  }
}
