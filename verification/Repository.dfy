/**
 The store on disk (src/downloader/local_repository.py): a main file, and one file per external
 drive with that drive's fragments and a small manifest of their fingerprints. The manifests
 decide quickly whether a database can be skipped; the loaded store decides slowly. `fp` is the
 fragment fingerprint, any function of the content.
 */
module Repository {
  import opened Prelude
  import opened Store

  /** The digest of a fragment. */
  datatype Print = Print(digest: string)
  type Fragments = map<string, Paths>
  type Manifest = map<string, Print>
  type Dbs = map<string, DbStore>

  /** What is recorded for a database; `expected` is stamped when the store is saved. */
  datatype State = State(figp: Fingerprint, expected: Option<multiset<Print>>)

  type States = map<string, State>

  datatype DriveFiles = DriveFiles(store: Option<Fragments>, manifest: Option<Manifest>)
  datatype MainFile = MainFile(dbs: Dbs, states: States)
  datatype Disk = Disk(main: Option<MainFile>, states: Option<States>, drives: map<string, DriveFiles>)

  const NoFiles := DriveFiles(None, None)
  const EmptyStore := DbStore(NoPaths, None, map[], None, None)

  function FilesOn(disk: Disk, drive: string): DriveFiles { if drive in disk.drives then disk.drives[drive] else NoFiles }
  function Opened<V>(m: Option<map<string, V>>): map<string, V> { if m.None? then map[] else m.value }

  /* ---- Saving ---- */

  function AllDrives(dbs: Dbs): set<string> { set db, d | db in dbs && d in Drives(dbs[db]) :: d }

  function FragmentsOn(dbs: Dbs, drive: string): Fragments {
    map db | db in dbs && drive in Drives(dbs[db]) :: Drives(dbs[db])[drive]
  }

  function ManifestOf(fp: Paths -> Print, frags: Fragments, ids: set<string>): Manifest {
    map db | db in frags && db in ids :: fp(frags[db])
  }

  function SavedFiles(fp: Paths -> Print, dbs: Dbs, ids: set<string>, drive: string): DriveFiles {
    var m := ManifestOf(fp, FragmentsOn(dbs, drive), ids);
    DriveFiles(Some(FragmentsOn(dbs, drive)), if m == map[] then None else Some(m))
  }

  /** The fingerprints of a database's fragments, drive by drive. */
  function FragmentPrints(fp: Paths -> Print, drives: map<string, Paths>): map<string, Print> {
    map d | d in drives :: fp(drives[d])
  }

  /** The values at some keys, with repetitions. */
  ghost function BagAt(m: map<string, Print>, keys: set<string>): multiset<Print>
    requires keys <= m.Keys
    decreases keys
  {
    if keys == {} then multiset{}
    else
      var d :| d in keys;
      multiset{m[d]} + BagAt(m, keys - {d})
  }

  ghost function Bag(m: map<string, Print>): multiset<Print> { BagAt(m, m.Keys) }

  ghost function Stamped(fp: Paths -> Print, dbs: Dbs, states: States): States {
    map db | db in states ::
      if db in dbs then states[db].(expected := Some(Bag(FragmentPrints(fp, Drives(dbs[db]))))) else states[db]
  }

  function Core(s: DbStore): DbStore { s.(external := None) }
  function Cores(dbs: Dbs): Dbs { map db | db in dbs :: Core(dbs[db]) }

  function SavedDrive(fp: Paths -> Print, was: DriveFiles, dbs: Dbs, ids: set<string>, connected: set<string>,
                      drive: string): DriveFiles {
    if drive in AllDrives(dbs) then SavedFiles(fp, dbs, ids, drive) else if drive in connected then NoFiles else was
  }

  ghost function Saved(fp: Paths -> Print, disk: Disk, dbs: Dbs, states: States, connected: set<string>): Disk {
    Disk(Some(MainFile(Cores(dbs), Stamped(fp, dbs, states))),
         Some(Stamped(fp, dbs, states)),
         map d | d in disk.drives.Keys + AllDrives(dbs) + connected :: SavedDrive(fp, FilesOn(disk, d), dbs, states.Keys, connected, d))
  }

  /* ---- Loading ---- */

  function StoredOn(disk: Disk, drive: string): Fragments { Opened(FilesOn(disk, drive).store) }

  /** Fragments of databases that are neither stored nor configured are left alone. */
  predicate Wanted(disk: Disk, configured: set<string>, db: string) {
    disk.main.None? || db in disk.main.value.dbs || db in configured
  }

  /** The drives that have a fragment of the database. */
  function LoadedDrives(disk: Disk, connected: set<string>, db: string): map<string, Paths> {
    map d | d in connected && db in StoredOn(disk, d) :: StoredOn(disk, d)[db]
  }

  function MainDbs(disk: Disk): Dbs { if disk.main.None? then map[] else disk.main.value.dbs }

  function LoadedIds(disk: Disk, connected: set<string>, configured: set<string>): set<string> {
    MainDbs(disk).Keys + set d, db | d in connected && db in StoredOn(disk, d) && Wanted(disk, configured, db) :: db
  }

  function LoadedStore(disk: Disk, connected: set<string>, db: string): DbStore {
    var core := if db in MainDbs(disk) then MainDbs(disk)[db] else EmptyStore;
    var m := LoadedDrives(disk, connected, db);
    if m == map[] then core else core.(external := Some(m))
  }

  function Loaded(disk: Disk, connected: set<string>, configured: set<string>): Dbs {
    map db | db in LoadedIds(disk, connected, configured) :: LoadedStore(disk, connected, db)
  }

  function LoadedStates(disk: Disk): States { if disk.main.None? then map[] else disk.main.value.states }

  /* ---- The round trip ---- */

  /** An empty external section is not kept. */
  function Normal(s: DbStore): DbStore { if Drives(s) == map[] then s.(external := None) else s }

  lemma SavedStoredOn(fp: Paths -> Print, disk: Disk, dbs: Dbs, states: States, connected: set<string>,
                      drive: string)
    requires drive in AllDrives(dbs) || drive in connected
    ensures StoredOn(Saved(fp, disk, dbs, states, connected), drive) == FragmentsOn(dbs, drive)
  {
  }

  /**
   Saving and loading gives back every database as it was, with empty external sections gone, as
   long as every drive of the store is connected and the others were there to be cleaned.
   */
  lemma SaveThenLoad(fp: Paths -> Print, disk: Disk, dbs: Dbs, states: States,
                     connected: set<string>, later: set<string>, configured: set<string>)
    requires AllDrives(dbs) <= later <= connected
    ensures var t := Saved(fp, disk, dbs, states, connected);
            && Loaded(t, later, configured) == (map db | db in dbs :: Normal(dbs[db]))
            && LoadedStates(t) == Stamped(fp, dbs, states)
  {
    var t := Saved(fp, disk, dbs, states, connected);
    forall d | d in later
      ensures StoredOn(t, d) == FragmentsOn(dbs, d)
    {
      SavedStoredOn(fp, disk, dbs, states, connected, d);
    }
    LoadBack(dbs, t, later, configured);
  }

  lemma LoadBack(dbs: Dbs, t: Disk, later: set<string>, configured: set<string>)
    requires AllDrives(dbs) <= later && MainDbs(t) == Cores(dbs)
    requires forall d :: d in later ==> StoredOn(t, d) == FragmentsOn(dbs, d)
    ensures Loaded(t, later, configured) == (map db | db in dbs :: Normal(dbs[db]))
  {
    assert LoadedIds(t, later, configured) == dbs.Keys;
    forall db | db in dbs
      ensures LoadedStore(t, later, db) == Normal(dbs[db])
    {
      LoadBackOne(dbs, t, later, db);
    }
  }

  lemma LoadBackOne(dbs: Dbs, t: Disk, later: set<string>, db: string)
    requires AllDrives(dbs) <= later && MainDbs(t) == Cores(dbs) && db in dbs
    requires forall d :: d in later ==> StoredOn(t, d) == FragmentsOn(dbs, d)
    ensures LoadedStore(t, later, db) == Normal(dbs[db])
  {
    var m := LoadedDrives(t, later, db);
    forall d
      ensures d in m <==> d in Drives(dbs[db])
      ensures d in m ==> m[d] == Drives(dbs[db])[d]
    {
      if d in Drives(dbs[db]) {
        assert d in AllDrives(dbs);
        assert StoredOn(t, d) == FragmentsOn(dbs, d);
      }
    }
    assert m == Drives(dbs[db]);
  }

  /** What a drive contributes after a save: what was saved if the save saw it, else what it had before. */
  function Contribution(disk: Disk, dbs: Dbs, connected: set<string>, drive: string): Fragments {
    if drive in AllDrives(dbs) || drive in connected then FragmentsOn(dbs, drive) else StoredOn(disk, drive)
  }

  lemma ContributionIsStored(fp: Paths -> Print, disk: Disk, dbs: Dbs, states: States, connected: set<string>, drive: string)
    ensures StoredOn(Saved(fp, disk, dbs, states, connected), drive) == Contribution(disk, dbs, connected, drive)
  {
  }

  ghost predicate Contributes(disk: Disk, dbs: Dbs, connected: set<string>, drives: set<string>, db: string) {
    exists d :: d in drives && db in Contribution(disk, dbs, connected, d)
  }

  /**
   Loading after a save with any drives. The databases are the saved ones and, besides, configured
   ones that a drive which was away during the save still has.
   */
  lemma DatabasesAfterSave(fp: Paths -> Print, disk: Disk, dbs: Dbs, states: States, connected: set<string>, later: set<string>,
                           configured: set<string>, db: string)
    ensures db in Loaded(Saved(fp, disk, dbs, states, connected), later, configured) <==>
              db in dbs || (db in configured && Contributes(disk, dbs, connected, later, db))
  {
    var t := Saved(fp, disk, dbs, states, connected);
    if db !in dbs && db in LoadedIds(t, later, configured) {
      var d :| d in later && db in StoredOn(t, d) && Wanted(t, configured, db);
      ContributionIsStored(fp, disk, dbs, states, connected, d);
    }
    if d :| d in later && db in Contribution(disk, dbs, connected, d) {
      ContributionIsStored(fp, disk, dbs, states, connected, d);
      assert db in StoredOn(t, d) && (db in configured ==> Wanted(t, configured, db));
      assert db in configured ==> db in LoadedIds(t, later, configured);
    }
    assert db in dbs ==> db in MainDbs(t);
  }

  /**
   A database has its own core, the saved fragments of the connected drives that the save saw, and
   the old fragments, unchanged, of the connected drives that were away during it.
   */
  lemma SectionsAfterSave(fp: Paths -> Print, disk: Disk, dbs: Dbs, states: States, connected: set<string>, later: set<string>,
                          configured: set<string>, db: string, d: string)
    requires db in Loaded(Saved(fp, disk, dbs, states, connected), later, configured)
    ensures var s := Loaded(Saved(fp, disk, dbs, states, connected), later, configured)[db];
            && Core(s) == (if db in dbs then Core(dbs[db]) else EmptyStore)
            && (d in Drives(s) <==> d in later && db in Contribution(disk, dbs, connected, d))
            && (d in Drives(s) ==> Drives(s)[d] == Contribution(disk, dbs, connected, d)[db])
  {
    var t := Saved(fp, disk, dbs, states, connected);
    ContributionIsStored(fp, disk, dbs, states, connected, d);
    assert Drives(LoadedStore(t, later, db)) == LoadedDrives(t, later, db);
  }

  /* ---- The two decisions ---- */

  datatype Question = Question(fastest: bool, hash: string, size: int, filter: string)

  predicate CanSkip(q: Question, f: Fingerprint) {
    && q.fastest
    && f.hash == q.hash && f.hash != NO_HASH
    && f.size == q.size && f.size != NO_SIZE
    && f.filter == q.filter
  }

  predicate Covered(expected: multiset<Print>, available: multiset<Print>) { expected <= available }

  predicate CanSkipWith(q: Question, s: State, available: multiset<Print>) {
    CanSkip(q, s.figp) && s.expected.Some? && Covered(s.expected.value, available)
  }

  /** The entries for one database in the manifests of the connected drives. */
  function ManifestPrints(disk: Disk, connected: set<string>, db: string): map<string, Print> {
    map d | d in connected && db in Opened(FilesOn(disk, d).manifest) :: Opened(FilesOn(disk, d).manifest)[db]
  }

  /** The decision taken before the store is loaded. */
  ghost predicate FastSkip(q: Question, disk: Disk, connected: set<string>, db: string) {
    && disk.states.Some? && db in disk.states.value
    && CanSkipWith(q, disk.states.value[db], Bag(ManifestPrints(disk, connected, db)))
  }

  const NoState := State(NoFingerprint, None)

  /** The decision taken on the loaded store; a disconnected drive is not trusted. */
  ghost predicate SlowSkip(fp: Paths -> Print, q: Question, s: DbStore, state: State, required: bool, connected: set<string>) {
    if state.expected.Some? then CanSkipWith(q, state, Bag(FragmentPrints(fp, Drives(s))))
    else !required && CanSkip(q, state.figp) && Drives(s).Keys <= connected
  }

  ghost predicate SlowSkipOnDisk(fp: Paths -> Print, q: Question, disk: Disk, connected: set<string>, configured: set<string>,
                                 db: string, required: bool) {
    var s := if db in Loaded(disk, connected, configured) then Loaded(disk, connected, configured)[db] else EmptyStore;
    var state := if db in LoadedStates(disk) then LoadedStates(disk)[db] else NoState;
    SlowSkip(fp, q, s, state, required, connected)
  }

  /* ---- The fast decision is the slow one ---- */

  /** A drive whose manifest says what its fragments are, for the databases with a recorded state. */
  ghost predicate Agrees(fp: Paths -> Print, f: DriveFiles, ids: set<string>) {
    forall db :: db in ids ==>
      && (db in Opened(f.manifest) <==> db in Opened(f.store))
      && (db in Opened(f.manifest) ==> Opened(f.manifest)[db] == fp(Opened(f.store)[db]))
  }

  /** Every drive that the save saw agrees afterwards. */
  lemma SavedDrivesAgree(fp: Paths -> Print, disk: Disk, dbs: Dbs, states: States, connected: set<string>,
                         drive: string)
    requires drive in AllDrives(dbs) || drive in connected
    ensures Agrees(fp, FilesOn(Saved(fp, disk, dbs, states, connected), drive), states.Keys)
  {
  }

  lemma PrintsAgree(fp: Paths -> Print, disk: Disk, connected: set<string>, ids: set<string>, db: string)
    requires db in ids && forall d :: d in connected ==> Agrees(fp, FilesOn(disk, d), ids)
    ensures ManifestPrints(disk, connected, db) == FragmentPrints(fp, LoadedDrives(disk, connected, db))
  {
  }

  lemma LoadedOneDb(disk: Disk, later: set<string>, configured: set<string>, db: string)
    requires db in MainDbs(disk) && MainDbs(disk)[db].external.None?
    ensures db in Loaded(disk, later, configured)
    ensures Drives(Loaded(disk, later, configured)[db]) == LoadedDrives(disk, later, db)
  {
  }

  /**
   After an error-free save, for every later set of connected drives, and for every question, the
   decision from the manifests is the decision from the loaded fragments. Drives that were away
   during the save may come back if their own files agree.
   */
  lemma FastPathIsSlowPath(fp: Paths -> Print, q: Question, disk: Disk, dbs: Dbs, states: States,
                           connected: set<string>, later: set<string>, configured: set<string>, db: string, required: bool)
    requires states.Keys <= dbs.Keys && (db in dbs || db in configured)
    requires var t := Saved(fp, disk, dbs, states, connected);
             forall d :: d in later && d !in connected && d !in AllDrives(dbs) ==> Agrees(fp, FilesOn(t, d), states.Keys)
    ensures var t := Saved(fp, disk, dbs, states, connected);
            FastSkip(q, t, later, db) <==> SlowSkipOnDisk(fp, q, t, later, configured, db, required)
  {
    var t := Saved(fp, disk, dbs, states, connected);
    if db in states {
      forall d | d in later
        ensures Agrees(fp, FilesOn(t, d), states.Keys)
      {
        if d in connected || d in AllDrives(dbs) {
          SavedDrivesAgree(fp, disk, dbs, states, connected, d);
        }
      }
      PrintsAgree(fp, t, later, states.Keys, db);
      LoadedOneDb(t, later, configured, db);
      assert Stamped(fp, dbs, states)[db].expected.Some?;
    }
  }

  /* ---- What being covered means ---- */

  lemma {:induction false} BagPick(m: map<string, Print>, keys: set<string>, d: string)
    requires keys <= m.Keys && d in keys
    ensures BagAt(m, keys) == multiset{m[d]} + BagAt(m, keys - {d})
    decreases keys
  {
    var e :| e in keys && BagAt(m, keys) == multiset{m[e]} + BagAt(m, keys - {e});
    if e != d {
      BagPick(m, keys - {e}, d);
      BagPick(m, keys - {d}, e);
      assert keys - {e} - {d} == keys - {d} - {e};
    }
  }

  lemma {:induction false} BagSame(m: map<string, Print>, n: map<string, Print>, keys: set<string>)
    requires keys <= m.Keys && keys <= n.Keys && forall d :: d in keys ==> m[d] == n[d]
    ensures BagAt(m, keys) == BagAt(n, keys)
    decreases keys
  {
    if keys != {} {
      var d :| d in keys;
      BagPick(m, keys, d);
      BagPick(n, keys, d);
      BagSame(m, n, keys - {d});
    }
  }

  lemma {:induction false} BagSize(m: map<string, Print>, keys: set<string>)
    requires keys <= m.Keys
    ensures |BagAt(m, keys)| == |keys|
    decreases keys
  {
    if keys != {} {
      var d :| d in keys;
      BagPick(m, keys, d);
      BagSize(m, keys - {d});
    }
  }

  /** With some keys left out, the rest covers the whole exactly when nothing was left out. */
  lemma CoverNeedsAll(m: map<string, Print>, here: set<string>)
    ensures Bag(m) <= BagAt(m, m.Keys * here) <==> m.Keys <= here
  {
    var kept := m.Keys * here;
    BagSize(m, m.Keys);
    BagSize(m, kept);
    if m.Keys <= here {
      assert kept == m.Keys;
    } else if Bag(m) <= BagAt(m, kept) {
      SubBagSize(Bag(m), BagAt(m, kept));
      SmallerSubset(kept, m.Keys);
    }
  }

  lemma SubBagSize(a: multiset<Print>, b: multiset<Print>)
    requires a <= b
    ensures |a| <= |b|
  {
    assert b == a + (b - a);
  }

  /**
   After a save, a stored database with a recorded state is covered by the drives that are
   connected later exactly when every drive that carries a fragment of it is among them. Mirror
   drives that share fingerprints do not stand in for each other, whatever `fp` is.
   */
  lemma CoveredIffAllCarriersConnected(fp: Paths -> Print, disk: Disk, dbs: Dbs, states: States,
                                       connected: set<string>, later: set<string>, db: string)
    requires db in dbs && db in states && later <= connected + AllDrives(dbs)
    ensures var t := Saved(fp, disk, dbs, states, connected);
            && t.states.value[db].expected.Some?
            && (Covered(t.states.value[db].expected.value, Bag(ManifestPrints(t, later, db))) <==>
                  Drives(dbs[db]).Keys <= later)
  {
    var t := Saved(fp, disk, dbs, states, connected);
    var m := FragmentPrints(fp, Drives(dbs[db]));
    forall d | d in later
      ensures Agrees(fp, FilesOn(t, d), states.Keys) && StoredOn(t, d) == FragmentsOn(dbs, d)
    {
      SavedDrivesAgree(fp, disk, dbs, states, connected, d);
      SavedStoredOn(fp, disk, dbs, states, connected, d);
    }
    PrintsAgree(fp, t, later, states.Keys, db);
    var n := ManifestPrints(t, later, db);
    assert n.Keys == m.Keys * later;
    BagSame(m, n, n.Keys);
    CoverNeedsAll(m, later);
  }

  /**
   So a skip is decided exactly when the checking is the fastest, the stored hash and size are real
   and those of the database, the stored filter is the user's, and no carrier is missing.
   */
  lemma SkipIffUnchangedAndComplete(fp: Paths -> Print, q: Question, disk: Disk, dbs: Dbs, states: States,
                                    connected: set<string>, later: set<string>, db: string)
    requires db in dbs && db in states && later <= connected + AllDrives(dbs)
    ensures var t := Saved(fp, disk, dbs, states, connected);
            FastSkip(q, t, later, db) <==>
              && q.fastest && states[db].figp.filter == q.filter
              && states[db].figp.hash == q.hash && q.hash != NO_HASH
              && states[db].figp.size == q.size && q.size != NO_SIZE
              && forall d :: d in Drives(dbs[db]) ==> d in later
  {
    CoveredIffAllCarriersConnected(fp, disk, dbs, states, connected, later, db);
  }

  /** One difference is enough for a database to be processed, whatever is on disk and whichever decision is taken. */
  lemma AnyDifferenceIsProcessed(fp: Paths -> Print, q: Question, disk: Disk, connected: set<string>, configured: set<string>, db: string,
                                 required: bool)
    requires db in Opened(disk.states) ==>
               var f := Opened(disk.states)[db].figp;
               !q.fastest || f.hash != q.hash || f.hash == NO_HASH || f.size != q.size || f.size == NO_SIZE || f.filter != q.filter
    ensures !FastSkip(q, disk, connected, db)
    ensures LoadedStates(disk) == Opened(disk.states) ==> !SlowSkipOnDisk(fp, q, disk, connected, configured, db, required)
  {
  }
}
