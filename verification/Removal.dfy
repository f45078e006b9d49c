/**
 What an update deletes and what it takes over from other databases
 (src/downloader/online_importer.py, from the removal phase to the displacement phase). Paths are
 compared in lower case because the partitions are case-insensitive.
 */
module Removal {
  import opened Prelude
  import opened Store

  function LowerChar(c: char): char { if 'A' <= c <= 'Z' then c - 'A' + 'a' else c }
  function Lower(s: string): string { seq(|s|, i requires 0 <= i < |s| => LowerChar(s[i])) }

  function Join(drive: string, rel: string): string { drive + "/" + rel }

  function LowerAll(names: set<string>): set<string> { set n | n in names :: Lower(n) }

  /* ---- Questions to a store ---- */

  /** The candidates, in lower case, that some section of the store holds in some case. */
  function MatchingPathsCi(s: DbStore, kind: Kind, candidates: set<string>): set<string> {
    (set k | k in s.base.Of(kind) && Lower(k) in candidates :: Lower(k))
    + (set d, k | d in Drives(s) && k in Drives(s)[d].Of(kind) && Lower(k) in candidates :: Lower(k))
  }

  /** Some section of the store holds the path, whatever its case. */
  ghost predicate Claims(s: DbStore, kind: Kind, low: string) {
    || (exists k :: k in s.base.Of(kind) && Lower(k) == low)
    || (exists d, k :: OnDrive(s, kind, d, k) && Lower(k) == low)
  }

  lemma MatchingIsClaiming(s: DbStore, kind: Kind, candidates: set<string>, low: string)
    ensures low in MatchingPathsCi(s, kind, candidates) <==> low in candidates && Claims(s, kind, low)
  {
    if low in candidates && Claims(s, kind, low) {
      if k :| k in s.base.Of(kind) && Lower(k) == low {
        assert low in MatchingPathsCi(s, kind, candidates);
      } else {
        var d, k :| OnDrive(s, kind, d, k) && Lower(k) == low;
        assert k in Drives(s)[d].Of(kind);
      }
    }
    if low in MatchingPathsCi(s, kind, candidates) && !exists k :: k in s.base.Of(kind) && Lower(k) == low {
      var d, k :| d in Drives(s) && k in Drives(s)[d].Of(kind) && Lower(k) == low;
      assert OnDrive(s, kind, d, k);
    }
  }

  /* ---- The removal queue ---- */

  /** A file to be dropped: where it is, and which other files it goes with. */
  datatype Pkg = Pkg(rel: string, full: string, external: bool, drive: Option<string>, tangles: seq<string>)

  /** One queued path, and the databases that drop it. */
  datatype Entry = Entry(pkg: Pkg, dbs: seq<string>)

  /** A path on the unlink list, with the queued path it comes from. */
  datatype Unlink = Unlink(rel: string, full: string)

  predicate IsEntangledWith(p: Pkg, failed: set<string>) { exists t :: t in p.tangles && Lower(t) in failed }

  function Consumers(queue: seq<Entry>, low: string): set<string> {
    set i, db | 0 <= i < |queue| && Lower(queue[i].pkg.rel) == low && db in queue[i].dbs :: db
  }

  function Candidates(queue: seq<Entry>): set<string> { set i | 0 <= i < |queue| :: Lower(queue[i].pkg.rel) }

  /** What the phase reads and never changes. */
  datatype Context = Context(basePath: string, failed: set<string>)

  datatype Removals = Removals(
    stores: map<string, Wrapper>, processed: set<string>, unlinks: set<Unlink>, removed: seq<Entry>)

  /** Where else than in its own place the file is recorded. */
  function OtherPlaces(s: DbStore, p: Pkg): set<Unlink>
    requires s.basePath.Some?
  {
    var home := if p.drive.None? then s.basePath.value else p.drive.value;
    (set d | d in Drives(s) && d != home && p.rel in Drives(s)[d].files :: Unlink(p.rel, Join(d, p.rel)))
    + (if home != s.basePath.value && p.rel in s.base.files then {Unlink(p.rel, Join(s.basePath.value, p.rel))} else {})
  }

  /** Every database that drops something is running, so its store has a base path. */
  ghost predicate Running(stores: map<string, Wrapper>, dbs: seq<string>) {
    forall db :: db in dbs ==> db in stores && stores[db].store.basePath.Some?
  }

  function DropRecord(w: Wrapper, rel: string): Wrapper {
    Do(Do(w, OpRemoveLocal(Files, rel)), OpRemoveFileFromZips(rel))
  }

  function DropRecords(stores: map<string, Wrapper>, dbs: seq<string>, rel: string): map<string, Wrapper> {
    map db | db in stores :: if db in dbs then DropRecord(stores[db], rel) else stores[db]
  }

  function PlacesIn(stores: map<string, Wrapper>, e: Entry): set<Unlink>
    requires Running(stores, e.dbs)
  {
    set db, u | db in e.dbs && u in OtherPlaces(stores[db].store, e.pkg) :: u
  }

  ghost function Consume(x: Context, r: Removals, e: Entry): Removals
    requires Running(r.stores, e.dbs)
  {
    if IsEntangledWith(e.pkg, x.failed) then r
    else
      var stores := DropRecords(r.stores, e.dbs, e.pkg.rel);
      if Lower(e.pkg.rel) in r.processed then r.(stores := stores)
      else Removals(stores, r.processed + {Lower(e.pkg.rel)},
                    r.unlinks + PlacesIn(r.stores, e) + (if e.pkg.external then {Unlink(e.pkg.rel, Join(x.basePath, e.pkg.rel))} else {})
                      + {Unlink(e.pkg.rel, e.pkg.full)},
                    r.removed + [e])
  }

  ghost predicate AllRunning(stores: map<string, Wrapper>, queue: seq<Entry>) {
    forall i :: 0 <= i < |queue| ==> Running(stores, queue[i].dbs)
  }

  lemma ConsumeKeepsRunning(x: Context, r: Removals, e: Entry, queue: seq<Entry>)
    requires Running(r.stores, e.dbs) && AllRunning(r.stores, queue)
    ensures AllRunning(Consume(x, r, e).stores, queue)
  {
  }

  lemma TailRunning(stores: map<string, Wrapper>, queue: seq<Entry>)
    requires queue != [] && AllRunning(stores, queue)
    ensures AllRunning(stores, queue[1..])
  {
  }

  ghost function ConsumeAll(x: Context, r: Removals, queue: seq<Entry>): Removals
    requires AllRunning(r.stores, queue)
    decreases |queue|
  {
    if queue == [] then r
    else
      assert Running(r.stores, queue[0].dbs);
      assert AllRunning(Consume(x, r, queue[0]).stores, queue[1..]) by {
        ConsumeKeepsRunning(x, r, queue[0], queue);
        TailRunning(Consume(x, r, queue[0]).stores, queue);
      }
      ConsumeAll(x, Consume(x, r, queue[0]), queue[1..])
  }

  /** Some stored database claims the path and is not dropping it. */
  ghost predicate ClaimedByOther(stores: map<string, Wrapper>, queue: seq<Entry>, low: string) {
    exists db :: db in stores && Claims(stores[db].store, Files, low) && db !in Consumers(queue, low)
  }

  /** The paths that the phase starts by protecting. */
  ghost predicate Protects(stores: map<string, Wrapper>, queue: seq<Entry>, processedInRun: set<string>, protected: set<string>) {
    forall low :: low in protected <==>
      low in LowerAll(processedInRun) || (low in Candidates(queue) && ClaimedByOther(stores, queue, low))
  }

  /* ---- Deletion safety ---- */

  ghost predicate Unlinked(r: Removals, low: string) { exists u :: u in r.unlinks && Lower(u.rel) == low }

  ghost predicate Droppable(x: Context, queue: seq<Entry>, low: string) {
    exists e :: e in queue && Lower(e.pkg.rel) == low && !IsEntangledWith(e.pkg, x.failed)
  }

  lemma ConsumeUnlinks(x: Context, r: Removals, e: Entry)
    requires Running(r.stores, e.dbs)
    ensures var t := Consume(x, r, e);
            && r.unlinks <= t.unlinks
            && (forall u :: u in t.unlinks && u !in r.unlinks ==>
                  u.rel == e.pkg.rel && Lower(e.pkg.rel) !in r.processed && !IsEntangledWith(e.pkg, x.failed))
            && (!IsEntangledWith(e.pkg, x.failed) && Lower(e.pkg.rel) !in r.processed ==> Unlink(e.pkg.rel, e.pkg.full) in t.unlinks)
            && t.processed == r.processed + if IsEntangledWith(e.pkg, x.failed) then {} else {Lower(e.pkg.rel)}
  {
  }

  /** Over the whole queue, from any start. */
  lemma {:induction false} QueueUnlinks(x: Context, r: Removals, queue: seq<Entry>)
    requires AllRunning(r.stores, queue)
    ensures var t := ConsumeAll(x, r, queue);
            && r.unlinks <= t.unlinks
            && (forall u :: u in t.unlinks && u !in r.unlinks ==> Lower(u.rel) !in r.processed && Droppable(x, queue, Lower(u.rel)))
            && (forall low :: low !in r.processed && Droppable(x, queue, low) ==> Unlinked(t, low))
            && (forall u, v :: (u in t.unlinks && v in t.unlinks && u !in r.unlinks && v !in r.unlinks
                                && Lower(u.rel) == Lower(v.rel)) ==> u.rel == v.rel)
    decreases |queue|
  {
    if queue != [] {
      var e := queue[0];
      assert Running(r.stores, e.dbs);
      var s := Consume(x, r, e);
      ConsumeUnlinks(x, r, e);
      ConsumeKeepsRunning(x, r, e, queue);
      TailRunning(s.stores, queue);
      QueueUnlinks(x, s, queue[1..]);
      var t := ConsumeAll(x, r, queue);
      assert t == ConsumeAll(x, s, queue[1..]);
      forall u | u in t.unlinks && u !in r.unlinks
        ensures Lower(u.rel) !in r.processed && Droppable(x, queue, Lower(u.rel))
      {
        if u in s.unlinks {
          assert e in queue;
        } else {
          DroppableLater(x, queue, Lower(u.rel));
        }
      }
      forall low | low !in r.processed && Droppable(x, queue, low)
        ensures Unlinked(t, low)
      {
        if low in s.processed {
          assert Unlink(e.pkg.rel, e.pkg.full) in t.unlinks;
        } else {
          var d :| d in queue && Lower(d.pkg.rel) == low && !IsEntangledWith(d.pkg, x.failed);
          assert d in queue[1..];
        }
      }
    }
  }

  lemma DroppableLater(x: Context, queue: seq<Entry>, low: string)
    requires queue != [] && Droppable(x, queue[1..], low)
    ensures Droppable(x, queue, low)
  {
  }

  /**
   Deletion safety: no path on the unlink list was processed in this run or is claimed, in any
   case and in any section, by a stored database that is not dropping it; it is deleted only in
   places of its own; and the paths on the list are exactly the unprotected ones that some entry not
   entangled with a failed file names.
   */
  lemma UnlinksAreSafe(x: Context, stores: map<string, Wrapper>, queue: seq<Entry>, processedInRun: set<string>, protected: set<string>)
    requires AllRunning(stores, queue) && Protects(stores, queue, processedInRun, protected)
    ensures var t := ConsumeAll(x, Removals(stores, protected, {}, []), queue);
            && (forall u :: u in t.unlinks ==>
                  && Lower(u.rel) !in LowerAll(processedInRun)
                  && (forall db :: db in stores && Claims(stores[db].store, Files, Lower(u.rel)) ==>
                        db in Consumers(queue, Lower(u.rel))))
            && (forall u, db, k :: u in t.unlinks && db in stores && Records(stores[db].store, k) && Lower(k) == Lower(u.rel) ==>
                  db in Consumers(queue, Lower(u.rel)))
            && (forall u :: u in t.unlinks ==>
                  exists e :: e in queue && e.pkg.rel == u.rel && !IsEntangledWith(e.pkg, x.failed) && IsPlaceOf(x, stores, DbsOf(e), e.pkg, u.full))
            && (forall low :: Unlinked(t, low) <==> low !in protected && Droppable(x, queue, low))
            && (forall u, v :: u in t.unlinks && v in t.unlinks && Lower(u.rel) == Lower(v.rel) ==> u.rel == v.rel)
  {
    var r := Removals(stores, protected, {}, []);
    QueueUnlinks(x, r, queue);
    var t := ConsumeAll(x, r, queue);
    forall u | u in t.unlinks
      ensures Lower(u.rel) in Candidates(queue)
    {
      var e :| e in queue && Lower(e.pkg.rel) == Lower(u.rel) && !IsEntangledWith(e.pkg, x.failed);
      var i :| 0 <= i < |queue| && queue[i] == e;
      assert Lower(queue[i].pkg.rel) in Candidates(queue);
    }
    forall db, k | db in stores && Records(stores[db].store, k)
      ensures Claims(stores[db].store, Files, Lower(k))
    {
      ClaimsAreRecords(stores[db].store, Lower(k));
    }
    forall u | u in t.unlinks
      ensures exists e :: e in queue && e.pkg.rel == u.rel && !IsEntangledWith(e.pkg, x.failed) && IsPlaceOf(x, stores, DbsOf(e), e.pkg, u.full)
    {
      UnlinksArePlaces(x, r, queue, u);
      var i :| 0 <= i < |queue| && Takes(x, protected, queue, i)
               && u.rel == queue[i].pkg.rel && IsPlaceOf(x, stores, DbsOf(queue[i]), queue[i].pkg, u.full);
      assert queue[i] in queue;
    }
  }

  /* ---- Records ---- */

  ghost predicate Records(s: DbStore, path: string) { path in s.base.files || exists d :: OnDrive(s, Files, d, path) }

  /** A claim is a record in some case. */
  lemma ClaimsAreRecords(s: DbStore, low: string)
    ensures Claims(s, Files, low) <==> exists k :: Records(s, k) && Lower(k) == low
  {
    if k :| Records(s, k) && Lower(k) == low {
      if d :| OnDrive(s, Files, d, k) {
        assert k in Drives(s)[d].Of(Files);
      } else {
        assert k in s.base.Of(Files);
      }
    }
    if k :| k in s.base.Of(Files) && Lower(k) == low {
      assert Records(s, k);
    }
    if d, k :| OnDrive(s, Files, d, k) && Lower(k) == low {
      assert Records(s, k);
    }
  }

  /** The sections of the two stores agree about the path. */
  ghost predicate SameRecords(s: DbStore, t: DbStore, path: string) {
    && (path in s.base.files <==> path in t.base.files)
    && (path in s.base.files ==> s.base.files[path] == t.base.files[path])
    && Drives(s).Keys == Drives(t).Keys
    && (forall d :: d in Drives(s) ==> (OnDrive(s, Files, d, path) <==> OnDrive(t, Files, d, path)))
    && (forall d :: OnDrive(s, Files, d, path) ==> Drives(s)[d].files[path] == Drives(t)[d].files[path])
  }

  lemma DropRecordDrops(w: Wrapper, rel: string)
    ensures !Records(DropRecord(w, rel).store, rel)
    ensures forall p :: p != rel ==> SameRecords(w.store, DropRecord(w, rel).store, p)
  {
  }

  /** The entries that drop the path from the database. */
  ghost predicate DroppedBy(x: Context, queue: seq<Entry>, db: string, path: string) {
    exists e :: e in queue && e.pkg.rel == path && db in e.dbs && !IsEntangledWith(e.pkg, x.failed)
  }

  ghost predicate RecordsAfter(x: Context, queue: seq<Entry>, db: string, s: DbStore, t: DbStore, p: string) {
    if DroppedBy(x, queue, db, p) then !Records(t, p) else SameRecords(s, t, p)
  }

  lemma SameTwice(s: DbStore, t: DbStore, u: DbStore, p: string)
    requires SameRecords(s, t, p) && SameRecords(t, u, p)
    ensures SameRecords(s, u, p)
  {
  }

  lemma ConsumeRecords(x: Context, r: Removals, e: Entry, db: string, p: string)
    requires Running(r.stores, e.dbs) && db in r.stores
    ensures var t := Consume(x, r, e);
            && t.stores.Keys == r.stores.Keys
            && (if e.pkg.rel == p && db in e.dbs && !IsEntangledWith(e.pkg, x.failed) then !Records(t.stores[db].store, p)
                else SameRecords(r.stores[db].store, t.stores[db].store, p))
  {
    DropRecordDrops(r.stores[db], e.pkg.rel);
  }

  lemma StillNotRecorded(s: DbStore, t: DbStore, p: string)
    requires !Records(s, p) && SameRecords(s, t, p)
    ensures !Records(t, p)
  {
  }

  /** A database loses exactly the paths it drops, entangled entries excepted; all else is as before. */
  lemma {:induction false} RecordsDroppedExactly(x: Context, r: Removals, queue: seq<Entry>, db: string, p: string)
    requires AllRunning(r.stores, queue) && db in r.stores
    ensures var t := ConsumeAll(x, r, queue);
            && t.stores.Keys == r.stores.Keys
            && RecordsAfter(x, queue, db, r.stores[db].store, t.stores[db].store, p)
    decreases |queue|
  {
    if queue != [] {
      var e := queue[0];
      assert Running(r.stores, e.dbs);
      var s := Consume(x, r, e);
      ConsumeRecords(x, r, e, db, p);
      ConsumeKeepsRunning(x, r, e, queue);
      TailRunning(s.stores, queue);
      RecordsDroppedExactly(x, s, queue[1..], db, p);
      var t := ConsumeAll(x, r, queue);
      assert t == ConsumeAll(x, s, queue[1..]);
      HeadDrops(x, queue, db, p);
      if !DroppedBy(x, queue, db, p) {
        SameTwice(r.stores[db].store, s.stores[db].store, t.stores[db].store, p);
      } else if !DroppedBy(x, queue[1..], db, p) {
        StillNotRecorded(s.stores[db].store, t.stores[db].store, p);
      }
    }
  }

  lemma HeadDrops(x: Context, queue: seq<Entry>, db: string, p: string)
    requires queue != []
    ensures DroppedBy(x, queue, db, p) <==>
              || (queue[0].pkg.rel == p && db in queue[0].dbs && !IsEntangledWith(queue[0].pkg, x.failed))
              || DroppedBy(x, queue[1..], db, p)
  {
  }

  /* ---- Where the unlinked files are ---- */

  /** The store records the path in another section than the one the package is in, and `full` is its place there. */
  ghost predicate IsCopyIn(s: DbStore, p: Pkg, full: string) {
    s.basePath.Some? &&
    var home := if p.drive.Some? then p.drive else s.basePath;
    || (exists d :: OnDrive(s, Files, d, p.rel) && Some(d) != home && full == Join(d, p.rel))
    || (s.basePath != home && p.rel in s.base.files && full == Join(s.basePath.value, p.rel))
  }

  /** One of the databases has such a copy. */
  ghost predicate IsCopy(stores: map<string, Wrapper>, dbs: set<string>, p: Pkg, full: string) {
    exists db :: db in dbs && db in stores && IsCopyIn(stores[db].store, p, full)
  }

  /** The places of a file that is dropped: the package's own, that below the base path for an external one, and the copies. */
  ghost predicate IsPlaceOf(x: Context, stores: map<string, Wrapper>, dbs: set<string>, p: Pkg, full: string) {
    || full == p.full
    || (p.external && full == Join(x.basePath, p.rel))
    || IsCopy(stores, dbs, p, full)
  }

  function DbsOf(e: Entry): set<string> { set db | db in e.dbs }

  lemma OtherPlacesAreCopies(s: DbStore, p: Pkg, u: Unlink)
    requires s.basePath.Some?
    ensures u in OtherPlaces(s, p) <==> u.rel == p.rel && IsCopyIn(s, p, u.full)
  {
    var home := if p.drive.Some? then p.drive else s.basePath;
    if u.rel == p.rel && IsCopyIn(s, p, u.full) {
      if d :| OnDrive(s, Files, d, p.rel) && Some(d) != home && u.full == Join(d, p.rel) {
        assert u == Unlink(p.rel, Join(d, p.rel));
      }
    }
    if u in OtherPlaces(s, p) {
      if d :| d in Drives(s) && Some(d) != home && p.rel in Drives(s)[d].files && u == Unlink(p.rel, Join(d, p.rel)) {
        assert OnDrive(s, Files, d, p.rel);
      }
    }
  }

  /** What one entry adds to the list. */
  lemma EntryPlaces(x: Context, r: Removals, e: Entry, u: Unlink)
    requires Running(r.stores, e.dbs)
    ensures u in Consume(x, r, e).unlinks <==>
              || u in r.unlinks
              || (!IsEntangledWith(e.pkg, x.failed) && Lower(e.pkg.rel) !in r.processed
                  && u.rel == e.pkg.rel && IsPlaceOf(x, r.stores, DbsOf(e), e.pkg, u.full))
  {
    forall db | db in e.dbs
      ensures u in OtherPlaces(r.stores[db].store, e.pkg) <==> u.rel == e.pkg.rel && IsCopyIn(r.stores[db].store, e.pkg, u.full)
    {
      OtherPlacesAreCopies(r.stores[db].store, e.pkg, u);
    }
    assert u in PlacesIn(r.stores, e) <==> u.rel == e.pkg.rel && IsCopy(r.stores, DbsOf(e), e.pkg, u.full);
  }

  /** Dropping another path moves no copy of this one. */
  lemma CopiesStay(x: Context, r: Removals, e: Entry, dbs: set<string>, p: Pkg, full: string)
    requires Running(r.stores, e.dbs) && (p.rel != e.pkg.rel || IsEntangledWith(e.pkg, x.failed))
    ensures IsPlaceOf(x, Consume(x, r, e).stores, dbs, p, full) <==> IsPlaceOf(x, r.stores, dbs, p, full)
  {
    var t := Consume(x, r, e);
    forall db | db in r.stores
      ensures db in t.stores && (IsCopyIn(t.stores[db].store, p, full) <==> IsCopyIn(r.stores[db].store, p, full))
    {
      DropRecordDrops(r.stores[db], e.pkg.rel);
      if t.stores[db] != r.stores[db] {
        assert SameRecords(r.stores[db].store, t.stores[db].store, p.rel);
        DropKeepsBasePath(r.stores[db], e.pkg.rel);
      }
    }
    assert t.stores.Keys == r.stores.Keys;
  }

  lemma DropKeepsBasePath(w: Wrapper, rel: string)
    ensures DropRecord(w, rel).store.basePath == w.store.basePath
  {
  }

  /** The entry's turn: it is not entangled, its path is not protected, and no entry before it took it in some spelling. */
  ghost predicate Takes(x: Context, processed: set<string>, queue: seq<Entry>, i: nat)
    requires i < |queue|
  {
    && !IsEntangledWith(queue[i].pkg, x.failed) && Lower(queue[i].pkg.rel) !in processed
    && forall j :: 0 <= j < i && Lower(queue[j].pkg.rel) == Lower(queue[i].pkg.rel) ==> IsEntangledWith(queue[j].pkg, x.failed)
  }

  ghost predicate IsListed(x: Context, stores: map<string, Wrapper>, processed: set<string>, queue: seq<Entry>, u: Unlink) {
    exists i :: 0 <= i < |queue| && Takes(x, processed, queue, i)
                && u.rel == queue[i].pkg.rel && IsPlaceOf(x, stores, DbsOf(queue[i]), queue[i].pkg, u.full)
  }

  lemma TakesLater(x: Context, r: Removals, queue: seq<Entry>, i: nat)
    requires 0 < i < |queue| && Running(r.stores, queue[0].dbs)
    ensures Takes(x, r.processed, queue, i) <==>
              && Takes(x, Consume(x, r, queue[0]).processed, queue[1..], i - 1)
              && (Lower(queue[0].pkg.rel) == Lower(queue[i].pkg.rel) ==> IsEntangledWith(queue[0].pkg, x.failed))
  {
    ConsumeUnlinks(x, r, queue[0]);
    assert queue[1..][i - 1] == queue[i];
    assert forall j :: 0 <= j < i - 1 ==> queue[1..][j] == queue[j + 1];
    if Takes(x, Consume(x, r, queue[0]).processed, queue[1..], i - 1)
      && (Lower(queue[0].pkg.rel) == Lower(queue[i].pkg.rel) ==> IsEntangledWith(queue[0].pkg, x.failed)) {
      forall j | 0 <= j < i && Lower(queue[j].pkg.rel) == Lower(queue[i].pkg.rel)
        ensures IsEntangledWith(queue[j].pkg, x.failed)
      {
        if j > 0 {
          assert queue[1..][j - 1] == queue[j];
        }
      }
    }
  }

  /** The unlink list is exactly the places of the entries that have their turn, as the stores record them at the start. */
  lemma {:induction false} UnlinksArePlaces(x: Context, r: Removals, queue: seq<Entry>, u: Unlink)
    requires AllRunning(r.stores, queue)
    ensures u in ConsumeAll(x, r, queue).unlinks <==> u in r.unlinks || IsListed(x, r.stores, r.processed, queue, u)
    decreases |queue|
  {
    if queue != [] {
      var e := queue[0];
      assert Running(r.stores, e.dbs);
      var s := Consume(x, r, e);
      ConsumeKeepsRunning(x, r, e, queue);
      TailRunning(s.stores, queue);
      UnlinksArePlaces(x, s, queue[1..], u);
      EntryPlaces(x, r, e, u);
      ListedFirstOrLater(x, r, queue, u);
    }
  }

  lemma ListedFirstOrLater(x: Context, r: Removals, queue: seq<Entry>, u: Unlink)
    requires queue != [] && Running(r.stores, queue[0].dbs)
    ensures var e, s := queue[0], Consume(x, r, queue[0]);
            IsListed(x, r.stores, r.processed, queue, u) <==>
              || (!IsEntangledWith(e.pkg, x.failed) && Lower(e.pkg.rel) !in r.processed
                  && u.rel == e.pkg.rel && IsPlaceOf(x, r.stores, DbsOf(e), e.pkg, u.full))
              || IsListed(x, s.stores, s.processed, queue[1..], u)
  {
    var e, s := queue[0], Consume(x, r, queue[0]);
    if i :| 0 <= i < |queue| && Takes(x, r.processed, queue, i)
            && u.rel == queue[i].pkg.rel && IsPlaceOf(x, r.stores, DbsOf(queue[i]), queue[i].pkg, u.full) && i > 0 {
      TakesLater(x, r, queue, i);
      CopiesStay(x, r, e, DbsOf(queue[i]), queue[i].pkg, u.full);
      assert queue[1..][i - 1] == queue[i];
    }
    if i :| 0 <= i < |queue[1..]| && Takes(x, s.processed, queue[1..], i)
            && u.rel == queue[1..][i].pkg.rel && IsPlaceOf(x, s.stores, DbsOf(queue[1..][i]), queue[1..][i].pkg, u.full) {
      assert queue[1..][i] == queue[i + 1];
      ConsumeUnlinks(x, r, e);
      TakesLater(x, r, queue, i + 1);
      CopiesStay(x, r, e, DbsOf(queue[i + 1]), queue[i + 1].pkg, u.full);
    }
    if !IsEntangledWith(e.pkg, x.failed) && Lower(e.pkg.rel) !in r.processed {
      assert Takes(x, r.processed, queue, 0);
    }
  }

  /* ---- Deleting ---- */

  datatype AllowDelete = DeleteNone | DeleteAll | DeleteOldRbf

  function Suffix(path: string): string { if |path| < 4 then path else path[|path| - 4..] }

  predicate MayDelete(allow: AllowDelete, path: string) {
    allow.DeleteAll? || (allow.DeleteOldRbf? && Lower(Suffix(path)) == ".rbf")
  }

  ghost predicate EndsInCi(path: string, low: string) { exists a, b :: path == a + b && Lower(b) == low }

  /** By setting: nothing may be deleted, anything may, or exactly what ends in .rbf, in any case. */
  lemma MayDeleteBySetting(path: string)
    ensures !MayDelete(DeleteNone, path) && MayDelete(DeleteAll, path)
    ensures MayDelete(DeleteOldRbf, path) <==> EndsInCi(path, ".rbf")
  {
    if MayDelete(DeleteOldRbf, path) {
      assert |Lower(Suffix(path))| == 4 && path == path[..|path| - 4] + path[|path| - 4..];
    }
    if a, b :| path == a + b && Lower(b) == ".rbf" {
      assert |b| == |Lower(b)| == 4 && path[|path| - 4..] == b;
    }
  }

  /* ---- Displacement ---- */

  /** Base paths equal to an installed one in some case, and drive paths equal to one exactly. */
  function MatchingFiles(s: DbStore, installed: set<string>): set<string> {
    (set k | k in s.base.files && Lower(k) in LowerAll(installed))
    + (set d, k | d in Drives(s) && k in Drives(s)[d].files && k in installed :: k)
  }

  function Without(m: map<string, Paths>, names: set<string>): map<string, Paths> {
    map d | d in m :: m[d].(files := m[d].files - names)
  }

  function DisplacedSections(s: DbStore, names: set<string>): DbStore {
    s.(base := s.base.(files := s.base.files - names),
       external := if s.external.None? then None else Some(Without(s.external.value, names)))
  }

  /** What the store of another database may look like after this run installed some files. */
  ghost predicate Displaced(w: Wrapper, v: Wrapper, installed: set<string>, downloaded: set<string>) {
    var names := MatchingFiles(w.store, installed);
    && v.store.base == DisplacedSections(w.store, names).base
    && v.store.external == DisplacedSections(w.store, names).external
    && v.figp == (if LowerAll(names) !! LowerAll(downloaded) then w.figp else NoFingerprint)
    && (w.dirty ==> v.dirty) && (names == {} ==> v == w)
  }

  /**
   Ownership transfer: the other store holds no base path equal in any case to an installed one
   and no such drive path in the same case; it keeps every other path, except that a base path it
   lost is gone from its drives too; and its fingerprint is reset exactly when a path it lost was
   downloaded.
   */
  lemma DisplacementTransfers(w: Wrapper, v: Wrapper, installed: set<string>, downloaded: set<string>)
    requires Displaced(w, v, installed, downloaded)
    ensures forall k :: k in v.store.base.files ==> Lower(k) !in LowerAll(installed)
    ensures forall d, k :: OnDrive(v.store, Files, d, k) ==> k !in installed
    ensures forall k :: k in w.store.base.files && Lower(k) !in LowerAll(installed) ==>
              k in v.store.base.files && v.store.base.files[k] == w.store.base.files[k]
    ensures forall d, k :: OnDrive(w.store, Files, d, k) ==>
              (OnDrive(v.store, Files, d, k) <==> k !in installed && (k in w.store.base.files ==> Lower(k) !in LowerAll(installed)))
    ensures forall d, k :: OnDrive(v.store, Files, d, k) ==>
              OnDrive(w.store, Files, d, k) && Drives(v.store)[d].files[k] == Drives(w.store)[d].files[k]
  {
  }

  /** The store has the path in the base section in some case, or on a drive in this one. */
  ghost predicate Loses(s: DbStore, installed: set<string>, k: string) {
    || (k in s.base.files && Lower(k) in LowerAll(installed))
    || (k in installed && exists d :: OnDrive(s, Files, d, k))
  }

  lemma MatchingMeans(s: DbStore, installed: set<string>, k: string)
    ensures k in MatchingFiles(s, installed) <==> Loses(s, installed, k)
  {
    if d :| OnDrive(s, Files, d, k) {
      assert k in Drives(s)[d].files;
    }
    if k in MatchingFiles(s, installed) && !(k in s.base.files && Lower(k) in LowerAll(installed)) {
      var d :| d in Drives(s) && k in Drives(s)[d].files;
      assert OnDrive(s, Files, d, k);
    }
  }

  /** The reset happens exactly when a path that the store lost was downloaded, in whatever case. */
  lemma ResetIffDownloaded(w: Wrapper, v: Wrapper, installed: set<string>, downloaded: set<string>)
    requires Displaced(w, v, installed, downloaded) && w.figp != NoFingerprint
    ensures v.figp == NoFingerprint <==>
              exists k :: Lower(k) in LowerAll(downloaded) && Loses(w.store, installed, k)
  {
    var names := MatchingFiles(w.store, installed);
    forall k ensures k in names ==> Lower(k) in LowerAll(names) { MatchingMeans(w.store, installed, k); }
    if v.figp == NoFingerprint {
      var l :| l in LowerAll(names) && l in LowerAll(downloaded);
      var k :| k in names && Lower(k) == l;
      MatchingMeans(w.store, installed, k);
    } else if k :| Lower(k) in LowerAll(downloaded) && Loses(w.store, installed, k) {
      MatchingMeans(w.store, installed, k);
    }
  }
}
