/**
 The removal and displacement phases as the importer runs them: loops that grow the protected
 names and the unlink list, edit the stores and delete files. The stores are values here, each
 changed through the operations of module Store.
 */
module OnlineImporter {
  import opened Store
  import opened Removal
  import opened RemovalQueue

  /** The part of the disk that matters, and its answers; deleting may fail, and `refused` has where it did. */
  class FileSystem {
    var files: set<string>
    ghost var refused: set<string>

    method IsFile(path: string) returns (present: bool)
      ensures present <==> path in files
    {
      present := path in files;
    }

    method Unlink(path: string) returns (ok: bool)
      modifies this
      ensures files == if ok then old(files) - {path} else old(files)
      ensures refused == if ok then old(refused) else old(refused) + {path}
    {
      if * {
        files := files - {path};
        ok := true;
      } else {
        refused := refused + {path};
        ok := false;
      }
    }
  }

  lemma ConsumersGrow(queue: seq<Entry>, i: nat, low: string)
    requires i < |queue|
    ensures Consumers(queue[..i + 1], low)
         == Consumers(queue[..i], low) + (if Lower(queue[i].pkg.rel) == low then set db | db in queue[i].dbs else {})
  {
  }

  lemma CandidatesGrow(queue: seq<Entry>, i: nat)
    requires i < |queue|
    ensures Candidates(queue[..i + 1]) == Candidates(queue[..i]) + {Lower(queue[i].pkg.rel)}
  {
  }

  /** Who drops each path, whatever its case. */
  method LoweredConsumers(queue: seq<Entry>) returns (consumers: map<string, set<string>>)
    ensures consumers.Keys == Candidates(queue)
    ensures forall low :: low in consumers ==> consumers[low] == Consumers(queue, low)
  {
    consumers := map[];
    for i := 0 to |queue|
      invariant consumers.Keys == Candidates(queue[..i])
      invariant forall low :: low in consumers ==> consumers[low] == Consumers(queue[..i], low)
    {
      var low := Lower(queue[i].pkg.rel);
      ghost var before := consumers;
      consumers := consumers[low := (if low in consumers then consumers[low] else {}) + set db | db in queue[i].dbs];
      CandidatesGrow(queue, i);
      forall l | l in consumers
        ensures consumers[l] == Consumers(queue[..i + 1], l)
      {
        ConsumersGrow(queue, i, l);
        if l !in before {
          NoConsumers(queue[..i], l);
        }
      }
    }
    assert queue[..|queue|] == queue;
  }

  lemma NoConsumers(queue: seq<Entry>, low: string)
    requires low !in Candidates(queue)
    ensures Consumers(queue, low) == {}
  {
  }

  /** What an entry adds does not depend on what was gathered before it. */
  lemma ConsumeAdds(x: Context, r: Removals, e: Entry)
    requires Running(r.stores, e.dbs)
    ensures var t := Consume(x, Removals(r.stores, r.processed, {}, []), e);
            Consume(x, r, e) == Removals(t.stores, t.processed, r.unlinks + t.unlinks, r.removed + t.removed)
  {
  }

  ghost predicate ClaimedAmong(stores: map<string, Wrapper>, dbs: set<string>, queue: seq<Entry>, low: string) {
    exists db :: db in stores && db in dbs && Claims(stores[db].store, Files, low) && db !in Consumers(queue, low)
  }

  /** The setting lets the file be deleted. */
  ghost predicate Allowed(allow: AllowDelete, path: string) {
    allow.DeleteAll? || (allow.DeleteOldRbf? && EndsInCi(path, ".rbf"))
  }

  /** Not entangled with a failed file, not processed in this run, and recorded, in any case, only by databases that drop it. */
  ghost predicate IsFree(x: Context, stores: map<string, Wrapper>, queue: seq<Entry>, processedInRun: set<string>, p: Pkg) {
    && (forall t :: t in p.tangles ==> Lower(t) !in x.failed)
    && (forall k :: k in processedInRun ==> Lower(k) != Lower(p.rel))
    && (forall db, k :: db in stores && Records(stores[db].store, k) && Lower(k) == Lower(p.rel) ==> db in Consumers(queue, Lower(p.rel)))
  }

  ghost predicate MayVanish(x: Context, stores: map<string, Wrapper>, queue: seq<Entry>, processedInRun: set<string>, f: string) {
    exists e :: e in queue && IsFree(x, stores, queue, processedInRun, e.pkg) && IsPlaceOf(x, stores, DbsOf(e), e.pkg, f)
  }

  /** A place of a path that has its turn. */
  ghost predicate IsPlace(x: Context, stores: map<string, Wrapper>, protected: set<string>, queue: seq<Entry>, f: string) {
    exists rel :: IsListed(x, stores, protected, queue, Unlink(rel, f))
  }

  lemma ListIsPlaces(x: Context, stores: map<string, Wrapper>, queue: seq<Entry>, processedInRun: set<string>, protected: set<string>,
                     list: seq<Unlink>)
    requires AllRunning(stores, queue) && Protects(stores, queue, processedInRun, protected)
    requires forall u :: u in list <==> IsListed(x, stores, protected, queue, u)
    ensures forall u :: u in list ==> MayVanish(x, stores, queue, processedInRun, u.full)
    ensures forall f :: IsPlace(x, stores, protected, queue, f) <==> exists u :: u in list && u.full == f
  {
    forall u | u in list
      ensures MayVanish(x, stores, queue, processedInRun, u.full)
    {
      var i :| 0 <= i < |queue| && Takes(x, protected, queue, i)
               && u.rel == queue[i].pkg.rel && IsPlaceOf(x, stores, DbsOf(queue[i]), queue[i].pkg, u.full);
      assert Lower(queue[i].pkg.rel) in Candidates(queue);
      assert queue[i] in queue;
      forall db, k | db in stores && Records(stores[db].store, k) && Lower(k) == Lower(queue[i].pkg.rel)
        ensures db in Consumers(queue, Lower(queue[i].pkg.rel))
      {
        ClaimsAreRecords(stores[db].store, Lower(k));
      }
    }
    forall f
      ensures IsPlace(x, stores, protected, queue, f) <==> exists u :: u in list && u.full == f
    {
      if rel :| IsListed(x, stores, protected, queue, Unlink(rel, f)) {
        assert Unlink(rel, f) in list;
      }
      if u :| u in list && u.full == f {
        assert u == Unlink(u.rel, f);
      }
    }
  }

  class OnlineImporter {
    const basePath: string
    const allowDelete: AllowDelete
    const fileSystem: FileSystem
    var stores: map<string, Wrapper>

    constructor (base: string, allow: AllowDelete, fs: FileSystem, loaded: map<string, Wrapper>)
      ensures stores == loaded && fileSystem == fs && basePath == base && allowDelete == allow
    {
      basePath, allowDelete, fileSystem, stores := base, allow, fs, loaded;
    }

    /** What this run processed, and what a stored database claims and is not dropping. */
    method ProtectedNames(queue: seq<Entry>, processedInRun: set<string>) returns (protected: set<string>)
      ensures Protects(stores, queue, processedInRun, protected)
    {
      protected := LowerAll(processedInRun);
      var consumers := LoweredConsumers(queue);
      var dbs := stores.Keys;
      while dbs != {}
        invariant dbs <= stores.Keys
        invariant forall low :: low in protected <==>
                    || low in LowerAll(processedInRun)
                    || (low in Candidates(queue) && ClaimedAmong(stores, stores.Keys - dbs, queue, low))
        decreases dbs
      {
        var db :| db in dbs;
        var claims := MatchingPathsCi(stores[db].store, Files, consumers.Keys);
        protected := protected + set low | low in claims && db !in consumers[low];
        forall low { MatchingIsClaiming(stores[db].store, Files, consumers.Keys, low); }
        dbs := dbs - {db};
      }
    }

    /** The first and second loop of an entry: note where else the file is, then drop the records. */
    method DropFrom(e: Entry, blocked: bool) returns (places: seq<Unlink>)
      requires Running(stores, e.dbs)
      modifies this`stores
      ensures stores == DropRecords(old(stores), e.dbs, e.pkg.rel)
      ensures (set u | u in places) == if blocked then {} else PlacesIn(old(stores), e)
    {
      places := [];
      for i := 0 to |e.dbs|
        invariant stores == old(stores)
        invariant forall u :: u in places <==> !blocked && exists db :: db in e.dbs[..i] && u in OtherPlaces(stores[db].store, e.pkg)
      {
        assert e.dbs[..i + 1] == e.dbs[..i] + [e.dbs[i]];
        if !blocked {
          var others := ListPlaces(OtherPlaces(stores[e.dbs[i]].store, e.pkg));
          places := places + others;
        }
      }
      assert e.dbs[..|e.dbs|] == e.dbs;
      var was := stores;
      for i := 0 to |e.dbs|
        invariant stores.Keys == was.Keys
        invariant forall db :: db in was ==> stores[db] == if db in e.dbs[..i] then DropRecord(was[db], e.pkg.rel) else was[db]
      {
        var db := e.dbs[i];
        assert e.dbs[..i + 1] == e.dbs[..i] + [db];
        if db in e.dbs[..i] {
          DropTwice(was[db], e.pkg.rel);
        }
        stores := stores[db := DropRecord(stores[db], e.pkg.rel)];
      }
      assert stores == DropRecords(was, e.dbs, e.pkg.rel);
    }

    static method ListPlaces(places: set<Unlink>) returns (list: seq<Unlink>)
      ensures forall u :: u in list <==> u in places
    {
      list := [];
      var rest := places;
      while rest != {}
        invariant rest <= places && forall u :: u in list <==> u in places - rest
        decreases rest
      {
        var u :| u in rest;
        list := list + [u];
        rest := rest - {u};
      }
    }

    /** One entry of the queue. */
    method ConsumeEntry(e: Entry, processed: set<string>, failed: set<string>)
      returns (unlinkList: seq<Unlink>, later: set<string>, removed: seq<Entry>)
      requires Running(stores, e.dbs)
      modifies this`stores
      ensures var t := Consume(Context(basePath, failed), Removals(old(stores), processed, {}, []), e);
              t == Removals(stores, later, (set u | u in unlinkList), removed)
    {
      unlinkList, later, removed := [], processed, [];
      if IsEntangledWith(e.pkg, failed) {
        return;
      }
      var low := Lower(e.pkg.rel);
      unlinkList := DropFrom(e, low in processed);
      if low !in processed {
        if e.pkg.external {
          unlinkList := unlinkList + [Unlink(e.pkg.rel, Join(basePath, e.pkg.rel))];
        }
        unlinkList := unlinkList + [Unlink(e.pkg.rel, e.pkg.full)];
        later := processed + {low};
        removed := [e];
      }
    }

    /** The loop over the queue. */
    method ConsumeQueue(queue: seq<Entry>, protected: set<string>, failed: set<string>)
      returns (unlinkList: seq<Unlink>, removed: seq<Entry>)
      requires AllRunning(stores, queue)
      modifies this`stores
      ensures var t := ConsumeAll(Context(basePath, failed), Removals(old(stores), protected, {}, []), queue);
              stores == t.stores && removed == t.removed && forall u :: u in unlinkList <==> u in t.unlinks
      ensures forall u :: u in unlinkList <==> IsListed(Context(basePath, failed), old(stores), protected, queue, u)
    {
      ghost var x := Context(basePath, failed);
      ghost var r := Removals(stores, protected, {}, []);
      var processed := protected;
      unlinkList, removed := [], [];
      for i := 0 to |queue|
        invariant r == Removals(stores, processed, (set u | u in unlinkList), removed)
        invariant AllRunning(stores, queue[i..])
        invariant ConsumeAll(x, r, queue[i..]) == ConsumeAll(x, Removals(old(stores), protected, {}, []), queue)
      {
        var e := queue[i];
        assert e == queue[i..][0] && queue[i..][1..] == queue[i + 1..];
        assert Running(stores, e.dbs);
        ConsumeKeepsRunning(x, r, e, queue[i..]);
        ConsumeAdds(x, r, e);
        var more, added;
        more, processed, added := ConsumeEntry(e, processed, failed);
        assert (set u | u in unlinkList + more) == (set u | u in unlinkList) + (set u | u in more);
        unlinkList, removed := unlinkList + more, removed + added;
        r := Consume(x, r, e);
        TailRunning(stores, queue[i..]);
      }
      assert queue[|queue|..] == [];
      forall u
        ensures u in unlinkList <==> IsListed(x, old(stores), protected, queue, u)
      {
        UnlinksArePlaces(x, Removals(old(stores), protected, {}, []), queue, u);
      }
    }

    /**
     The removal phase, on disk. A file disappears only if the setting allows it and it is a place
     of a queued path that is not entangled, was not processed in this run and that every database
     claiming it drops; and each allowed file at the place of a path that has its turn does, unless
     the file system refused.
     */
    method ConsumeFiles(box: InstallationBox, processedInRun: set<string>, failed: set<string>)
      returns (ghost queue: seq<Entry>, ghost protected: set<string>, removed: seq<Entry>)
      requires box.Valid() && DropsAreRunning(stores, box.queued)
      modifies this`stores, fileSystem, box
      ensures box.Valid() && box.queued == [] && QueuedFrom(old(box.queued), queue) && AllRunning(old(stores), queue)
      ensures Protects(old(stores), queue, processedInRun, protected)
      ensures var t := ConsumeAll(Context(basePath, failed), Removals(old(stores), protected, {}, []), queue);
              stores == t.stores && removed == t.removed
      ensures fileSystem.files <= old(fileSystem.files)
      ensures forall f :: f in old(fileSystem.files) && f !in fileSystem.files ==>
                && Allowed(allowDelete, f)
                && MayVanish(Context(basePath, failed), old(stores), queue, processedInRun, f)
      ensures var x := Context(basePath, failed);
              forall f :: f in fileSystem.files && Allowed(allowDelete, f) && IsPlace(x, old(stores), protected, queue, f) ==>
                f in fileSystem.refused
    {
      ghost var queued := box.queued;
      var files := box.ConsumeFiles();
      queue := files;
      EntriesAreRunning(stores, queued, queue);
      var names := ProtectedNames(files, processedInRun);
      protected := names;
      var unlinkList;
      unlinkList, removed := ConsumeQueue(files, names, failed);
      DeleteListed(unlinkList);
      ListIsPlaces(Context(basePath, failed), old(stores), queue, processedInRun, protected, unlinkList);
    }

    /** The loop over the unlink list. */
    method DeleteListed(unlinkList: seq<Unlink>)
      modifies fileSystem
      ensures fileSystem.files <= old(fileSystem.files)
      ensures forall f :: f in old(fileSystem.files) && f !in fileSystem.files ==>
                Allowed(allowDelete, f) && exists u :: u in unlinkList && u.full == f
      ensures forall u :: u in unlinkList && u.full in fileSystem.files && Allowed(allowDelete, u.full) ==> u.full in fileSystem.refused
    {
      for i := 0 to |unlinkList|
        invariant fileSystem.files <= old(fileSystem.files)
        invariant forall f :: f in old(fileSystem.files) && f !in fileSystem.files ==>
                    Allowed(allowDelete, f) && exists u :: u in unlinkList && u.full == f
        invariant forall k :: 0 <= k < i && unlinkList[k].full in fileSystem.files && Allowed(allowDelete, unlinkList[k].full) ==>
                    unlinkList[k].full in fileSystem.refused
      {
        MayDeleteBySetting(unlinkList[i].full);
        if MayDelete(allowDelete, unlinkList[i].full) {
          var present := fileSystem.IsFile(unlinkList[i].full);
          if present {
            var ok := fileSystem.Unlink(unlinkList[i].full);
          }
        }
      }
    }

    /* ---- Displacement ---- */

    method RemoveNames(db: string, names: set<string>)
      requires db in stores
      modifies this`stores
      ensures stores.Keys == old(stores).Keys && forall o :: o in stores && o != db ==> stores[o] == old(stores)[o]
      ensures var w, v := old(stores)[db], stores[db];
              && v.store.base == DisplacedSections(w.store, names).base
              && v.store.external == DisplacedSections(w.store, names).external
              && v.figp == w.figp && (w.dirty ==> v.dirty) && (names == {} ==> v == w)
    {
      var rest := names;
      ghost var w := stores[db];
      DisplaceNone(w.store);
      assert names - rest == {};
      while rest != {}
        invariant rest <= names && stores.Keys == old(stores).Keys
        invariant forall o :: o in stores && o != db ==> stores[o] == old(stores)[o]
        invariant stores[db].store.base == DisplacedSections(w.store, names - rest).base
        invariant stores[db].store.external == DisplacedSections(w.store, names - rest).external
        invariant stores[db].figp == w.figp && (w.dirty ==> stores[db].dirty)
        invariant names == {} ==> stores[db] == w
        decreases rest
      {
        var name :| name in rest;
        DropOneMore(w.store, stores[db], names - rest, name);
        stores := stores[db := DropRecord(stores[db], name)];
        assert names - (rest - {name}) == (names - rest) + {name};
        rest := rest - {name};
      }
      assert names - rest == names;
    }

    static method AnyDownloaded(names: set<string>, downloaded: set<string>) returns (any: bool)
      ensures any <==> !(LowerAll(names) !! LowerAll(downloaded))
    {
      any := exists n | n in names :: Lower(n) in LowerAll(downloaded);
      if n :| n in names && Lower(n) in LowerAll(downloaded) {
        assert Lower(n) in LowerAll(names);
      } else {
        forall l | l in LowerAll(names)
          ensures l !in LowerAll(downloaded)
        {
          var n :| n in names && Lower(n) == l;
        }
      }
    }

    /** Takes the installed paths away from a store that did not run. */
    method DisplaceFileOwnership(db: string, installed: set<string>, downloaded: set<string>) returns (displaced: bool)
      requires db in stores
      modifies this`stores
      ensures stores.Keys == old(stores).Keys && forall o :: o in stores && o != db ==> stores[o] == old(stores)[o]
      ensures Displaced(old(stores)[db], stores[db], installed, downloaded)
      ensures displaced <==> MatchingFiles(old(stores)[db].store, installed) != {}
    {
      var names := MatchingFiles(stores[db].store, installed);
      displaced := |names| > 0;
      RemoveNames(db, names);
      ghost var w, u := old(stores)[db], stores[db];
      var lost := AnyDownloaded(names, downloaded);
      var v := if lost then SetFingerprint(stores[db], NoFingerprint) else stores[db];
      DisplacedIs(w, u, v, installed, downloaded);
      stores := stores[db := v];
    }

    /** The displacement phase, over the skipped and the other stored databases. */
    method Displace(others: set<string>, installed: set<string>, downloaded: set<string>)
      requires others <= stores.Keys
      modifies this`stores
      ensures stores.Keys == old(stores).Keys
      ensures forall db :: db in stores && db !in others ==> stores[db] == old(stores)[db]
      ensures forall db :: db in others ==> Displaced(old(stores)[db], stores[db], installed, downloaded)
    {
      var rest := others;
      while rest != {}
        invariant rest <= others && stores.Keys == old(stores).Keys
        invariant forall db :: db in stores && (db !in others || db in rest) ==> stores[db] == old(stores)[db]
        invariant forall db :: db in others - rest ==> Displaced(old(stores)[db], stores[db], installed, downloaded)
        decreases rest
      {
        var db :| db in rest;
        var changed := DisplaceFileOwnership(db, installed, downloaded);
        rest := rest - {db};
      }
    }
  }

  /** Dropping a record again changes nothing. */
  lemma DropTwice(w: Wrapper, rel: string)
    ensures DropRecord(DropRecord(w, rel), rel) == DropRecord(w, rel)
  {
    var v := DropRecord(w, rel);
    DropRecordDrops(w, rel);
    assert Swept(Drives(v.store), Files, rel) == Drives(v.store) by {
      SweptSame(Drives(v.store), Files, rel);
    }
    var zips := v.store.zips;
    forall z | z in zips
      ensures zips[z].listed.Without(Files, rel) == zips[z].listed
    {
      assert zips[z].listed.files - {rel} == zips[z].listed.files;
    }
    assert WithoutListed(zips, Files, rel) == zips;
    assert v.additions.files - {rel} == v.additions.files;
  }

  lemma DisplacedIs(w: Wrapper, u: Wrapper, v: Wrapper, installed: set<string>, downloaded: set<string>)
    requires var names := MatchingFiles(w.store, installed);
             && u.store.base == DisplacedSections(w.store, names).base
             && u.store.external == DisplacedSections(w.store, names).external
             && u.figp == w.figp && (w.dirty ==> u.dirty) && (names == {} ==> u == w)
             && v == if LowerAll(names) !! LowerAll(downloaded) then u else SetFingerprint(u, NoFingerprint)
    ensures Displaced(w, v, installed, downloaded)
  {
  }

  lemma DisplaceNone(s: DbStore)
    ensures DisplacedSections(s, {}).base == s.base && DisplacedSections(s, {}).external == s.external
  {
    assert s.base.files - {} == s.base.files;
    if s.external.Some? {
      var m := s.external.value;
      var none: set<string> := {};
      forall d | d in m
        ensures m[d].(files := m[d].files - none) == m[d]
      {
        assert m[d].files - none == m[d].files;
      }
      assert Without(m, none) == m;
    }
  }

  lemma DropOneMore(s: DbStore, v: Wrapper, done: set<string>, name: string)
    requires v.store.base == DisplacedSections(s, done).base && v.store.external == DisplacedSections(s, done).external
    ensures var t := DropRecord(v, name);
            && t.store.base == DisplacedSections(s, done + {name}).base
            && t.store.external == DisplacedSections(s, done + {name}).external
            && t.figp == v.figp && (v.dirty ==> t.dirty)
  {
    assert s.base.files - done - {name} == s.base.files - (done + {name});
    if s.external.Some? {
      var m := s.external.value;
      forall d | d in m
        ensures m[d].files - done - {name} == m[d].files - (done + {name})
      {
      }
      assert Swept(Without(m, done), Files, name) == Without(m, done + {name});
    }
  }
}
