/**
 The loops that write and read the store files, and the two places that decide whether a
 database can be skipped (src/downloader/local_repository.py, external_store_fingerprints.py,
 jobs/open_db_worker.py, jobs/mix_store_and_db_worker.py), tied to module Repository.
 */
module LocalRepository {
  import opened Prelude
  import opened Store
  import opened Repository

  type Amounts = map<string, multiset<Print>>

  function Get<V>(m: map<string, map<string, V>>, k: string): map<string, V> { if k in m then m[k] else map[] }

  function Amount(m: Amounts, k: string): multiset<Print> { if k in m then m[k] else multiset{} }

  /** An amount with one more entry when the manifest has one. */
  function More(amounts: Amounts, m: Manifest, db: string): multiset<Print> {
    if db in m then Amount(amounts, db) + multiset{m[db]} else Amount(amounts, db)
  }

  /** Compares amounts, so that mirrors count. */
  method ExternalStoreFingerprintsCovered(expected: seq<Print>, available: seq<Print>) returns (covered: bool)
    ensures covered <==> Covered(multiset(expected), multiset(available))
  {
    var expectedAmounts, availableAmounts := multiset(expected), multiset(available);
    for i := 0 to |expected|
      invariant forall k :: 0 <= k < i ==> expectedAmounts[expected[k]] <= availableAmounts[expected[k]]
    {
      if availableAmounts[expected[i]] < expectedAmounts[expected[i]] {
        return false;
      }
    }
    forall x | x in expectedAmounts
      ensures expectedAmounts[x] <= availableAmounts[x]
    {
      assert x in expected;
    }
    covered := true;
  }

  /** Puts one database's fragments into the files of their drives. */
  method AddFragments(files: map<string, Fragments>, db: string, drives: map<string, Paths>) returns (r: map<string, Fragments>)
    ensures r.Keys == files.Keys + drives.Keys
    ensures forall d :: d in r ==> r[d] == if d in drives then Get(files, d)[db := drives[d]] else Get(files, d)
  {
    r := files;
    var rest := drives.Keys;
    while rest != {}
      invariant rest <= drives.Keys && r.Keys == files.Keys + (drives.Keys - rest)
      invariant forall d :: d in r ==> r[d] == if d in drives.Keys - rest then Get(files, d)[db := drives[d]] else Get(files, d)
      decreases rest
    {
      var d :| d in rest;
      r := r[d := (if d in r then r[d] else map[])[db := drives[d]]];
      rest := rest - {d};
    }
  }

  /** The store split drive by drive. */
  method SplitByDrive(dbs: Dbs) returns (files: map<string, Fragments>)
    ensures files == map d | d in AllDrives(dbs) :: FragmentsOn(dbs, d)
  {
    files := map[];
    var rest := dbs.Keys;
    while rest != {}
      invariant rest <= dbs.Keys
      invariant files.Keys == AllDrives(dbs - rest)
      invariant forall d :: d in files ==> files[d] == FragmentsOn(dbs - rest, d)
      decreases rest
    {
      var db :| db in rest;
      ghost var before, done := files, dbs - rest;
      files := AddFragments(files, db, Drives(dbs[db]));
      rest := rest - {db};
      assert dbs - rest == done[db := dbs[db]];
      SplitStep(done, db, dbs[db], before, files);
    }
    assert dbs - rest == dbs;
  }

  lemma SplitStep(done: Dbs, db: string, s: DbStore, before: map<string, Fragments>, files: map<string, Fragments>)
    requires db !in done && before.Keys == AllDrives(done)
    requires forall d :: d in before ==> before[d] == FragmentsOn(done, d)
    requires files.Keys == before.Keys + Drives(s).Keys
    requires forall d :: d in files ==> files[d] == if d in Drives(s) then Get(before, d)[db := Drives(s)[d]] else Get(before, d)
    ensures files.Keys == AllDrives(done[db := s])
    ensures forall d :: d in files ==> files[d] == FragmentsOn(done[db := s], d)
  {
    var more := done[db := s];
    forall d
      ensures d in AllDrives(more) <==> d in AllDrives(done) || d in Drives(s)
    {
      DrivesOneMore(done, db, s, d);
    }
    forall d | d in files
      ensures files[d] == FragmentsOn(more, d)
    {
      FragmentsOneMore(done, db, s, d);
    }
  }

  lemma DrivesOneMore(done: Dbs, db: string, s: DbStore, d: string)
    requires db !in done
    ensures d in AllDrives(done[db := s]) <==> d in AllDrives(done) || d in Drives(s)
  {
    var more := done[db := s];
    if d in AllDrives(done) {
      var e :| e in done && d in Drives(done[e]);
      assert e in more && d in Drives(more[e]);
    }
    if d in Drives(s) {
      assert db in more && d in Drives(more[db]);
    }
  }

  lemma FragmentsOneMore(done: Dbs, db: string, s: DbStore, d: string)
    requires db !in done
    ensures FragmentsOn(done[db := s], d) == if d in Drives(s) then FragmentsOn(done, d)[db := Drives(s)[d]] else FragmentsOn(done, d)
    ensures d !in AllDrives(done) ==> FragmentsOn(done, d) == map[]
  {
  }

  function Pair(frags: Fragments, manifest: Manifest): DriveFiles {
    DriveFiles(Some(frags), if manifest == map[] then None else Some(manifest))
  }

  /** The amount for one database counts the drives that are not in `rest`. */
  ghost predicate CountedFor(fp: Paths -> Print, dbs: Dbs, db: string, rest: set<string>,
                             expected: Amounts)
    requires db in dbs
  {
    var m := FragmentPrints(fp, Drives(dbs[db]));
    Amount(expected, db) == BagAt(m, m.Keys - rest)
  }

  ghost predicate Counted(fp: Paths -> Print, dbs: Dbs, ids: set<string>, rest: set<string>,
                          expected: Amounts) {
    forall db :: db in dbs && db in ids ==> CountedFor(fp, dbs, db, rest, expected)
  }

  lemma NothingCounted(fp: Paths -> Print, dbs: Dbs, ids: set<string>, all: set<string>)
    requires all == AllDrives(dbs)
    ensures Counted(fp, dbs, ids, all, map[])
  {
  }

  lemma ManifestEntry(fp: Paths -> Print, dbs: Dbs, ids: set<string>, d: string, db: string)
    requires db in dbs && db in ids
    ensures var manifest, m := ManifestOf(fp, FragmentsOn(dbs, d), ids), FragmentPrints(fp, Drives(dbs[db]));
            (db in manifest <==> d in m) && (d in m ==> manifest[db] == m[d])
  {
  }

  lemma CountOneDrive(fp: Paths -> Print, dbs: Dbs, ids: set<string>, rest: set<string>, d: string, manifest: Manifest,
                      before: Amounts, later: Amounts)
    requires d in rest && manifest == ManifestOf(fp, FragmentsOn(dbs, d), ids) && Counted(fp, dbs, ids, rest, before)
    requires forall db :: Amount(later, db) == More(before, manifest, db)
    ensures Counted(fp, dbs, ids, rest - {d}, later)
  {
    forall db | db in dbs && db in ids
      ensures CountedFor(fp, dbs, db, rest - {d}, later)
    {
      assert CountedFor(fp, dbs, db, rest, before);
      ManifestEntry(fp, dbs, ids, d, db);
      BagOneMore(FragmentPrints(fp, Drives(dbs[db])), rest, d);
      assert Amount(later, db) == More(before, manifest, db);
    }
  }

  lemma BagOneMore(m: map<string, Print>, rest: set<string>, d: string)
    requires d in rest
    ensures BagAt(m, m.Keys - (rest - {d})) == BagAt(m, m.Keys - rest) + if d in m then multiset{m[d]} else multiset{}
  {
    if d in m {
      BagPick(m, m.Keys - (rest - {d}), d);
      assert m.Keys - (rest - {d}) - {d} == m.Keys - rest;
    } else {
      assert m.Keys - (rest - {d}) == m.Keys - rest;
    }
  }

  lemma SavedDrivesAre(fp: Paths -> Print, was: Disk, dbs: Dbs, states: States, connected: set<string>,
                       drives: map<string, DriveFiles>)
    requires drives.Keys == was.drives.Keys + AllDrives(dbs) + connected
    requires forall d :: d in drives ==> drives[d] == SavedDrive(fp, FilesOn(was, d), dbs, states.Keys, connected, d)
    ensures drives == Saved(fp, was, dbs, states, connected).drives
  {
  }

  /** The amounts announced by the drives that are not in `rest`. */
  ghost predicate Announced(disk: Disk, connected: set<string>, rest: set<string>, db: string, available: Amounts) {
    var m := ManifestPrints(disk, connected, db);
    Amount(available, db) == BagAt(m, m.Keys - rest)
  }

  class LocalRepository {
    const fp: Paths -> Print
    var main: Option<MainFile>
    var states: Option<States>
    var drives: map<string, DriveFiles>

    ghost function View(): Disk
      reads this
    {
      Disk(main, states, drives)
    }

    constructor (hashOf: Paths -> Print, disk: Disk)
      ensures View() == disk && fp == hashOf
    {
      fp, main, states, drives := hashOf, disk.main, disk.states, disk.drives;
    }

    /** What each database expects to find in the manifests. */
    method ExpectedByDb(dbs: Dbs, manifests: map<string, Manifest>, ids: set<string>)
      returns (expected: Amounts)
      requires manifests == map d | d in AllDrives(dbs) :: ManifestOf(fp, FragmentsOn(dbs, d), ids)
      ensures forall db :: db in dbs && db in ids ==> Amount(expected, db) == Bag(FragmentPrints(fp, Drives(dbs[db])))
    {
      expected := map[];
      var rest := manifests.Keys;
      NothingCounted(fp, dbs, ids, manifests.Keys);
      while rest != {}
        invariant rest <= manifests.Keys && Counted(fp, dbs, ids, rest, expected)
        decreases rest
      {
        var d :| d in rest;
        ghost var before := expected;
        expected := AddPrints(expected, manifests[d]);
        CountOneDrive(fp, dbs, ids, rest, d, manifests[d], before, expected);
        rest := rest - {d};
      }
      forall db | db in dbs && db in ids
        ensures Amount(expected, db) == Bag(FragmentPrints(fp, Drives(dbs[db])))
      {
        assert CountedFor(fp, dbs, db, rest, expected);
        var m := FragmentPrints(fp, Drives(dbs[db]));
        assert m.Keys - rest == m.Keys;
      }
    }

    static method AddPrints(amounts: Amounts, m: Manifest) returns (r: Amounts)
      ensures forall db :: Amount(r, db) == More(amounts, m, db)
    {
      r := amounts;
      var rest := m.Keys;
      while rest != {}
        invariant rest <= m.Keys
        invariant forall db :: Amount(r, db) == if db in rest then Amount(amounts, db) else More(amounts, m, db)
        decreases rest
      {
        var db :| db in rest;
        ghost var before := r;
        r := r[db := Amount(r, db) + multiset{m[db]}];
        forall x | x != db ensures Amount(r, x) == Amount(before, x) {}
        rest := rest - {db};
      }
    }

    /** Records in each state what its database's drives hold. */
    method StampStates(dbs: Dbs, recorded: States, expected: Amounts)
      returns (stamped: States)
      requires forall db :: db in dbs && db in recorded ==> Amount(expected, db) == Bag(FragmentPrints(fp, Drives(dbs[db])))
      ensures stamped == Stamped(fp, dbs, recorded)
    {
      stamped := recorded;
      var rest := recorded.Keys;
      while rest != {}
        invariant rest <= recorded.Keys == stamped.Keys
        invariant forall db :: db in recorded ==>
                    stamped[db] == if db in rest then recorded[db] else Stamped(fp, dbs, recorded)[db]
        decreases rest
      {
        var db :| db in rest;
        if db in dbs {
          stamped := stamped[db := recorded[db].(expected := Some(if db in expected then expected[db] else multiset{}))];
        }
        rest := rest - {db};
      }
    }

    /** Saves with no write error: main file, states, one pair of files per drive, old pairs cleaned. */
    method SaveStore(dbs: Dbs, recorded: States, connected: set<string>)
      modifies this
      ensures View() == Saved(fp, old(View()), dbs, recorded, connected)
    {
      ghost var was := View();
      var files := SplitByDrive(dbs);
      var manifests := map d | d in files :: ManifestOf(fp, files[d], recorded.Keys);
      var expected := ExpectedByDb(dbs, manifests, recorded.Keys);
      var stamped := StampStates(dbs, recorded, expected);
      main := Some(MainFile(Cores(dbs), stamped));
      states := Some(stamped);
      SaveDrives(dbs, recorded.Keys, files, manifests, connected);
      SavedDrivesAre(fp, was, dbs, recorded, connected, drives);
    }

    method SaveDrives(ghost dbs: Dbs, ghost ids: set<string>, files: map<string, Fragments>,
                      manifests: map<string, Manifest>, connected: set<string>)
      requires files == map d | d in AllDrives(dbs) :: FragmentsOn(dbs, d)
      requires manifests == map d | d in files :: ManifestOf(fp, files[d], ids)
      modifies this`drives
      ensures drives.Keys == old(drives).Keys + AllDrives(dbs) + connected
      ensures forall d :: d in drives ==>
                drives[d] == SavedDrive(fp, if d in old(drives) then old(drives)[d] else NoFiles, dbs, ids, connected, d)
    {
      WriteFiles(files, manifests);
      CleanDrives(connected - files.Keys);
      forall d | d in drives && d in files
        ensures drives[d] == SavedFiles(fp, dbs, ids, d)
      {
        assert drives[d] == Pair(files[d], manifests[d]);
      }
    }

    method WriteFiles(files: map<string, Fragments>, manifests: map<string, Manifest>)
      requires files.Keys == manifests.Keys
      modifies this`drives
      ensures drives.Keys == old(drives).Keys + files.Keys
      ensures forall d :: d in drives ==> drives[d] == if d in files then Pair(files[d], manifests[d]) else old(drives)[d]
    {
      ghost var was := drives;
      var rest := files.Keys;
      while rest != {}
        invariant rest <= files.Keys && drives.Keys == was.Keys + (files.Keys - rest)
        invariant forall d :: d in drives ==> drives[d] == if d in files.Keys - rest then Pair(files[d], manifests[d]) else was[d]
        decreases rest
      {
        var d :| d in rest;
        drives := drives[d := DriveFiles(Some(files[d]), if |manifests[d]| > 0 then Some(manifests[d]) else None)];
        rest := rest - {d};
      }
    }

    method CleanDrives(others: set<string>)
      modifies this`drives
      ensures drives.Keys == old(drives).Keys + others
      ensures forall d :: d in drives ==> drives[d] == if d in others then NoFiles else old(drives)[d]
    {
      ghost var was := drives;
      var rest := others;
      while rest != {}
        invariant rest <= others && drives.Keys == was.Keys + (others - rest)
        invariant forall d :: d in drives ==> drives[d] == if d in others - rest then NoFiles else was[d]
        decreases rest
      {
        var d :| d in rest;
        drives := drives[d := NoFiles];
        rest := rest - {d};
      }
    }

    /** The fingerprints that the connected drives announce, database by database. */
    method LoadExternalStoreFingerprints(connected: set<string>) returns (available: Amounts)
      ensures forall db :: Amount(available, db) == Bag(ManifestPrints(View(), connected, db))
    {
      available := map[];
      var rest := connected;
      forall db
        ensures BagAt(ManifestPrints(View(), connected, db), ManifestPrints(View(), connected, db).Keys - rest) == multiset{}
      {
        assert ManifestPrints(View(), connected, db).Keys - rest == {};
      }
      while rest != {}
        invariant rest <= connected
        invariant forall db :: Announced(View(), connected, rest, db, available)
        decreases rest
      {
        var d :| d in rest;
        ghost var before := available;
        if d in drives && drives[d].manifest.Some? {
          available := AddPrints(available, drives[d].manifest.value);
        }
        forall db
          ensures Announced(View(), connected, rest - {d}, db, available)
        {
          assert Announced(View(), connected, rest, db, before);
          BagOneMore(ManifestPrints(View(), connected, db), rest, d);
        }
        rest := rest - {d};
      }
      forall db
        ensures Amount(available, db) == Bag(ManifestPrints(View(), connected, db))
      {
        assert Announced(View(), connected, rest, db, available);
        var m := ManifestPrints(View(), connected, db);
        assert m.Keys - rest == m.Keys;
      }
    }

    /** Adds one drive's fragments to the loaded databases. */
    method MergeDrive(dbs: Dbs, drive: string, frags: Fragments, configured: set<string>) returns (r: Dbs)
      ensures r.Keys == dbs.Keys + set db | db in frags && Wanted(View(), configured, db)
      ensures forall db :: db in r ==>
                var s := if db in dbs then dbs[db] else EmptyStore;
                r[db] == if db in frags && Wanted(View(), configured, db) then s.(external := Some(Drives(s)[drive := frags[db]])) else s
    {
      r := dbs;
      var rest := frags.Keys;
      while rest != {}
        invariant rest <= frags.Keys
        invariant r.Keys == dbs.Keys + set db | db in frags.Keys - rest && Wanted(View(), configured, db)
        invariant forall db :: db in r ==>
                    var s := if db in dbs then dbs[db] else EmptyStore;
                    r[db] == if db in frags.Keys - rest && Wanted(View(), configured, db)
                             then s.(external := Some(Drives(s)[drive := frags[db]])) else s
        decreases rest
      {
        var db :| db in rest;
        if main.None? || db in main.value.dbs || db in configured {
          var s := if db in r then r[db] else EmptyStore;
          r := r[db := s.(external := Some((if s.external.Some? then s.external.value else map[])[drive := frags[db]]))];
        }
        rest := rest - {db};
      }
    }

    /** Merges every connected drive's file into the main file. */
    method LoadStore(connected: set<string>, configured: set<string>) returns (dbs: Dbs)
      requires forall db :: db in MainDbs(View()) ==> MainDbs(View())[db].external.None?
      ensures dbs == Loaded(View(), connected, configured)
    {
      dbs := if main.None? then map[] else main.value.dbs;
      LoadedFromNone(View(), configured);
      var rest := connected;
      while rest != {}
        invariant rest <= connected && dbs == Loaded(View(), connected - rest, configured)
        decreases rest
      {
        var drive :| drive in rest;
        var f := if drive in drives then drives[drive] else NoFiles;
        ghost var before := dbs;
        if f.store.Some? {
          dbs := MergeDrive(dbs, drive, f.store.value, configured);
        }
        LoadedOneMore(View(), connected - rest, drive, configured, before, dbs);
        assert connected - (rest - {drive}) == connected - rest + {drive};
        rest := rest - {drive};
      }
      assert connected - rest == connected;
    }
  }

  /** The worker that opens databases; all of its jobs share the flag, which a lock guards. */
  class OpenDbWorker {
    var returnedLoadLocalStoreJob: bool
    ghost var releases: nat

    ghost predicate Valid()
      reads this
    {
      releases == if returnedLoadLocalStoreJob then 1 else 0
    }

    constructor ()
      ensures Valid() && releases == 0
    {
      returnedLoadLocalStoreJob, releases := false, 0;
    }

    /**
     What opening a database leads to. The load-store job is released once at most, and by the
     time some database has to be mixed with the store it was released or the store is loaded.
     */
    method OperateOn(q: Question, states: Option<States>, available: Amounts, db: string,
                     supported: bool, storeLoaded: bool)
      returns (skipped: bool, load: bool, metadataRequired: bool)
      requires Valid()
      modifies this
      ensures Valid() && releases == old(releases) + if load then 1 else 0
      ensures skipped <==>
                && states.Some? && db in states.value && q.fastest
                && q.hash == states.value[db].figp.hash && q.hash != NO_HASH
                && q.size == states.value[db].figp.size && q.size != NO_SIZE
                && q.filter == states.value[db].figp.filter
                && states.value[db].expected.Some? && states.value[db].expected.value <= Amount(available, db)
      ensures !skipped && !storeLoaded ==> releases == 1
      ensures storeLoaded ==> !load
      ensures metadataRequired <==>
                && !skipped && supported && states.Some? && db in states.value && q.fastest
                && q.hash == states.value[db].figp.hash && q.hash != NO_HASH
                && q.size == states.value[db].figp.size && q.size != NO_SIZE
                && q.filter == states.value[db].figp.filter
    {
      skipped, load, metadataRequired := false, false, false;
      if states.Some? && db in states.value {
        var s := states.value[db];
        if CanSkip(q, s.figp) && s.expected.Some? && Covered(s.expected.value, Amount(available, db)) {
          return true, false, false;
        }
        metadataRequired := supported && CanSkip(q, s.figp);
      }
      if !storeLoaded && !returnedLoadLocalStoreJob {
        returnedLoadLocalStoreJob := true;
        load, releases := true, releases + 1;
      }
    }
  }

  class MixStoreAndDbWorker {
    const fp: Paths -> Print

    constructor (hashOf: Paths -> Print)
      ensures fp == hashOf
    {
      fp := hashOf;
    }

    /** One fingerprint per drive, repetitions kept. */
    method ExternalFragmentFingerprints(s: DbStore) returns (prints: seq<Print>)
      ensures multiset(prints) == Bag(FragmentPrints(fp, Drives(s)))
    {
      prints := [];
      var m := Drives(s);
      ghost var all := FragmentPrints(fp, m);
      var rest := m.Keys;
      assert all.Keys - rest == {};
      while rest != {}
        invariant rest <= m.Keys == all.Keys && multiset(prints) == BagAt(all, all.Keys - rest)
        decreases rest
      {
        var d :| d in rest;
        BagOneMore(all, rest, d);
        prints := prints + [fp(m[d])];
        rest := rest - {d};
      }
      assert all.Keys - rest == all.Keys;
    }

    /**
     The decision once the store is there. A save is forced where the recorded metadata has to be
     written again: when it is missing, and when a drive's manifest did not confirm it.
     */
    method OperateOn(q: Question, s: DbStore, state: State, metadataRequired: bool, connected: set<string>)
      returns (skipped: bool, forceSave: bool)
      ensures skipped <==> SlowSkip(fp, q, s, state, metadataRequired, connected)
      ensures skipped <==>
                && q.fastest && q.filter == state.figp.filter
                && q.hash == state.figp.hash && q.hash != NO_HASH && q.size == state.figp.size && q.size != NO_SIZE
                && if state.expected.Some? then state.expected.value <= Bag(FragmentPrints(fp, Drives(s)))
                   else !metadataRequired && forall d :: d in Drives(s) ==> d in connected
      ensures forceSave <==>
                metadataRequired && if skipped then state.expected.Some? && state.expected.value != multiset{} else state.expected.None?
    {
      if state.expected.Some? {
        var available := ExternalFragmentFingerprints(s);
        skipped := CanSkip(q, state.figp) && Covered(state.expected.value, multiset(available));
      } else {
        skipped := !metadataRequired && CanSkip(q, state.figp) && Drives(s).Keys <= connected;
      }
      if skipped {
        forceSave := metadataRequired && state.expected.Some? && |state.expected.value| > 0;
      } else {
        forceSave := metadataRequired && state.expected.None?;
      }
    }
  }

  /** Without the metadata an unchanged database is processed once; the save that this forces lets the next run skip it. */
  lemma MissingMetadataIsWrittenOnce(fp: Paths -> Print, q: Question, disk: Disk, dbs: Dbs, states: States,
                                     connected: set<string>, db: string)
    requires db in dbs && db in states && states[db].expected.None? && CanSkip(q, states[db].figp)
    requires disk.states == Some(states) && AllDrives(dbs) <= connected
    ensures !FastSkip(q, disk, connected, db) && !SlowSkip(fp, q, dbs[db], states[db], true, connected)
    ensures FastSkip(q, Saved(fp, disk, dbs, states, connected), connected, db)
  {
    SkipIffUnchangedAndComplete(fp, q, disk, dbs, states, connected, connected, db);
    forall d | d in Drives(dbs[db]) ensures d in AllDrives(dbs) {}
  }

  lemma LoadedFromNone(disk: Disk, configured: set<string>)
    requires forall db :: db in MainDbs(disk) ==> MainDbs(disk)[db].external.None?
    ensures forall c: set<string> :: c == {} ==> Loaded(disk, c, configured) == MainDbs(disk)
  {
  }

  lemma LoadedOneMore(disk: Disk, done: set<string>, drive: string, configured: set<string>,
                      before: Dbs, dbs: Dbs)
    requires drive !in done && before == Loaded(disk, done, configured)
    requires forall db :: db in MainDbs(disk) ==> MainDbs(disk)[db].external.None?
    requires var frags := StoredOn(disk, drive);
             && dbs.Keys == before.Keys + (set db | db in frags && Wanted(disk, configured, db))
             && (forall db :: db in dbs ==>
                   var s := if db in before then before[db] else EmptyStore;
                   dbs[db] == if db in frags && Wanted(disk, configured, db) then s.(external := Some(Drives(s)[drive := frags[db]])) else s)
    ensures dbs == Loaded(disk, done + {drive}, configured)
  {
    var frags, more := StoredOn(disk, drive), done + {drive};
    forall db
      ensures db in dbs <==> db in LoadedIds(disk, more, configured)
    {
    }
    forall db | db in dbs
      ensures dbs[db] == LoadedStore(disk, more, db)
    {
      LoadedDbOneMore(disk, done, drive, configured, db);
    }
  }

  lemma LoadedDbOneMore(disk: Disk, done: set<string>, drive: string, configured: set<string>, db: string)
    requires drive !in done && (db in MainDbs(disk) ==> MainDbs(disk)[db].external.None?)
    requires db in LoadedIds(disk, done + {drive}, configured)
    ensures var s := if db in LoadedIds(disk, done, configured) then LoadedStore(disk, done, db) else EmptyStore;
            var frags := StoredOn(disk, drive);
            LoadedStore(disk, done + {drive}, db)
              == if db in frags && Wanted(disk, configured, db) then s.(external := Some(Drives(s)[drive := frags[db]])) else s
  {
    var frags, a, b := StoredOn(disk, drive), LoadedDrives(disk, done, db), LoadedDrives(disk, done + {drive}, db);
    var s := if db in LoadedIds(disk, done, configured) then LoadedStore(disk, done, db) else EmptyStore;
    assert Wanted(disk, configured, db);
    if db !in LoadedIds(disk, done, configured) {
      assert a == map[];
    }
    assert Drives(s) == a;
    if db in frags {
      assert b == a[drive := frags[db]] && drive in b;
    } else {
      assert b == a;
    }
  }
}
