/**
 How the removal queue comes about (InstallationBox in src/downloader/online_importer.py): every
 database queues packages, the box keeps them by path, and one path keeps the package that was
 queued first. What then happens to a path follows from the packages that were queued.
 */
module RemovalQueue {
  import opened Prelude
  import opened Store
  import opened Removal

  /** One database wants one file gone. */
  datatype Queued = Queued(db: string, pkg: Pkg)

  function By(db: string, files: seq<Pkg>): seq<Queued> { seq(|files|, i requires 0 <= i < |files| => Queued(db, files[i])) }

  /** The package that was queued first in exactly this spelling. */
  function First(queued: seq<Queued>, rel: string): Option<Pkg> {
    if queued == [] then None else if queued[0].pkg.rel == rel then Some(queued[0].pkg) else First(queued[1..], rel)
  }

  function Dropping(queued: seq<Queued>, rel: string): set<string> {
    set i | 0 <= i < |queued| && queued[i].pkg.rel == rel :: queued[i].db
  }

  lemma {:induction false} FirstPush(queued: seq<Queued>, q: Queued, rel: string)
    ensures First(queued + [q], rel) ==
            if First(queued, rel).Some? then First(queued, rel) else if q.pkg.rel == rel then Some(q.pkg) else None
  {
    if queued == [] {
      assert queued + [q] == [q] && [q][1..] == [];
    } else {
      assert (queued + [q])[1..] == queued[1..] + [q];
      FirstPush(queued[1..], q, rel);
    }
  }

  lemma {:induction false} FirstIsQueued(queued: seq<Queued>, rel: string)
    ensures First(queued, rel).Some? <==> exists i :: 0 <= i < |queued| && queued[i].pkg.rel == rel
    ensures First(queued, rel).Some? ==> First(queued, rel).value.rel == rel
  {
    if queued != [] {
      FirstIsQueued(queued[1..], rel);
      if i :| 0 <= i < |queued| && queued[i].pkg.rel == rel && i > 0 {
        assert queued[1..][i - 1].pkg.rel == rel;
      }
    }
  }

  /* ---- The order of paths ---- */

  predicate Before(a: string, b: string) {
    b != [] && (a == [] || a[0] < b[0] || (a[0] == b[0] && Before(a[1..], b[1..])))
  }

  lemma {:induction false} NeverBeforeItself(a: string)
    ensures !Before(a, a)
  {
    if a != [] {
      NeverBeforeItself(a[1..]);
    }
  }

  lemma {:induction false} BeforeIsTotal(a: string, b: string)
    ensures Before(a, b) || Before(b, a) || a == b
  {
    if a != [] && b != [] && a[0] == b[0] {
      BeforeIsTotal(a[1..], b[1..]);
      assert a == [a[0]] + a[1..] && b == [b[0]] + b[1..];
    }
  }

  lemma {:induction false} BeforeIsTransitive(a: string, b: string, c: string)
    requires Before(a, b) && Before(b, c)
    ensures Before(a, c)
  {
    if a != [] && a[0] == b[0] == c[0] {
      BeforeIsTransitive(a[1..], b[1..], c[1..]);
    }
  }

  ghost predicate IsLeast(p: string, paths: set<string>) { p in paths && forall q :: q in paths && q != p ==> Before(p, q) }

  lemma LeastOf(paths: set<string>, x: string, p: string)
    requires IsLeast(p, paths) && x !in paths
    ensures IsLeast(if Before(x, p) then x else p, paths + {x})
  {
    if Before(x, p) {
      forall q | q in paths && q != p
        ensures Before(x, q)
      {
        BeforeIsTransitive(x, p, q);
      }
    } else {
      BeforeIsTotal(x, p);
    }
  }

  lemma {:induction false} LeastExists(paths: set<string>)
    requires paths != {}
    ensures exists p :: IsLeast(p, paths)
    decreases |paths|
  {
    var x :| x in paths;
    var rest := paths - {x};
    assert paths == rest + {x};
    if rest == {} {
      assert IsLeast(x, paths);
    } else {
      assert |rest| < |paths|;
      LeastExists(rest);
      var p :| IsLeast(p, rest);
      LeastOf(rest, x, p);
    }
  }

  method Least(paths: set<string>) returns (p: string)
    requires paths != {}
    ensures IsLeast(p, paths)
  {
    LeastExists(paths);
    p :| p in paths && forall q :: q in paths && q != p ==> Before(p, q);
    assert IsLeast(p, paths);
  }

  /* ---- The box ---- */

  ghost predicate Sorted(queue: seq<Entry>) { forall i, j :: 0 <= i < j < |queue| ==> Before(queue[i].pkg.rel, queue[j].pkg.rel) }

  ghost predicate NoRepeats(dbs: seq<string>) { forall i, j :: 0 <= i < j < |dbs| ==> dbs[i] != dbs[j] }

  /** The entry has the first package of its path and names each database that drops the path once. */
  ghost predicate Merges(queued: seq<Queued>, e: Entry) {
    && First(queued, e.pkg.rel) == Some(e.pkg)
    && NoRepeats(e.dbs) && forall db :: db in e.dbs <==> db in Dropping(queued, e.pkg.rel)
  }

  /** One entry for each queued path, in the order of the paths. */
  ghost predicate QueuedFrom(queued: seq<Queued>, queue: seq<Entry>) {
    && Sorted(queue)
    && (forall e :: e in queue ==> Merges(queued, e))
    && (forall i :: 0 <= i < |queued| ==> HasEntry(queue, queued[i].pkg.rel))
  }

  ghost predicate HasEntry(queue: seq<Entry>, rel: string) { exists e :: e in queue && e.pkg.rel == rel }

  type Removing = map<string, (Pkg, set<string>)>

  /** By path, the first package and the databases that drop it. */
  ghost predicate Keeps(m: Removing, queued: seq<Queued>) {
    && (forall rel :: rel in m <==> First(queued, rel).Some?)
    && (forall rel :: rel in m ==> m[rel].0 == First(queued, rel).value && m[rel].1 == Dropping(queued, rel))
  }

  function Joined(m: Removing, pkg: Pkg, db: string): Removing {
    m[pkg.rel := if pkg.rel in m then (m[pkg.rel].0, m[pkg.rel].1 + {db}) else (pkg, {db})]
  }

  lemma JoinedKeeps(m: Removing, queued: seq<Queued>, q: Queued)
    requires Keeps(m, queued)
    ensures Keeps(Joined(m, q.pkg, q.db), queued + [q])
  {
    var t := Joined(m, q.pkg, q.db);
    forall rel
      ensures rel in t <==> First(queued + [q], rel).Some?
      ensures rel in t ==> t[rel].0 == First(queued + [q], rel).value && t[rel].1 == Dropping(queued + [q], rel)
    {
      FirstPush(queued, q, rel);
      DroppingPush(queued, q, rel);
      if rel !in m {
        NoneDropping(queued, rel);
      }
    }
  }

  class InstallationBox {
    var fileRemovals: Removing
    ghost var queued: seq<Queued>

    ghost predicate Valid()
      reads this
    {
      Keeps(fileRemovals, queued)
    }

    constructor ()
      ensures Valid() && queued == []
    {
      fileRemovals, queued := map[], [];
    }

    method QueueFileRemoval(files: seq<Pkg>, db: string)
      requires Valid()
      modifies this
      ensures Valid() && queued == old(queued) + By(db, files)
    {
      for i := 0 to |files|
        invariant Valid() && queued == old(queued) + By(db, files[..i])
      {
        var pkg := files[i];
        ghost var was := fileRemovals;
        JoinedKeeps(fileRemovals, queued, Queued(db, pkg));
        if pkg.rel !in fileRemovals {
          fileRemovals := fileRemovals[pkg.rel := (pkg, {})];
        }
        fileRemovals := fileRemovals[pkg.rel := (fileRemovals[pkg.rel].0, fileRemovals[pkg.rel].1 + {db})];
        assert {} + {db} == {db};
        assert fileRemovals == Joined(was, pkg, db);
        queued := queued + [Queued(db, pkg)];
        assert By(db, files[..i + 1]) == By(db, files[..i]) + [Queued(db, pkg)];
      }
      assert files[..|files|] == files;
    }

    /** The queue, sorted by path; the databases of a path come in any order. */
    method ConsumeFiles() returns (queue: seq<Entry>)
      requires Valid()
      modifies this
      ensures Valid() && queued == [] && QueuedFrom(old(queued), queue)
    {
      queue := [];
      var rest := fileRemovals.Keys;
      while rest != {}
        invariant fileRemovals == old(fileRemovals) && queued == old(queued) && Valid()
        invariant rest <= fileRemovals.Keys && Sorted(queue)
        invariant forall e, rel :: e in queue && rel in rest ==> Before(e.pkg.rel, rel)
        invariant forall e :: e in queue ==> Merges(queued, e)
        invariant forall rel :: rel in fileRemovals.Keys - rest ==> HasEntry(queue, rel)
        decreases rest
      {
        var rel := Least(rest);
        var dbs := List(fileRemovals[rel].1);
        var e := Entry(fileRemovals[rel].0, dbs);
        FirstIsQueued(queued, rel);
        ghost var before := queue;
        assert forall i :: 0 <= i < |queue| ==> queue[i] in queue;
        queue := queue + [e];
        rest := rest - {rel};
        assert e in queue;
        forall r | r in fileRemovals.Keys - rest
          ensures HasEntry(queue, r)
        {
          if r != rel {
            assert HasEntry(before, r);
            var f :| f in before && f.pkg.rel == r;
            assert f in queue;
          }
        }
      }
      forall i | 0 <= i < |queued|
        ensures HasEntry(queue, queued[i].pkg.rel)
      {
        FirstIsQueued(queued, queued[i].pkg.rel);
      }
      fileRemovals, queued := map[], [];
    }

    static method List(dbs: set<string>) returns (list: seq<string>)
      ensures NoRepeats(list) && forall db :: db in list <==> db in dbs
    {
      list := [];
      var rest := dbs;
      while rest != {}
        invariant rest <= dbs && NoRepeats(list) && forall db :: db in list <==> db in dbs - rest
        decreases rest
      {
        var db :| db in rest;
        assert forall i :: 0 <= i < |list| ==> list[i] in list;
        list := list + [db];
        rest := rest - {db};
      }
    }
  }

  lemma DroppingPush(queued: seq<Queued>, q: Queued, rel: string)
    ensures Dropping(queued + [q], rel) == Dropping(queued, rel) + if q.pkg.rel == rel then {q.db} else {}
  {
    var more := queued + [q];
    forall db | db in Dropping(queued, rel)
      ensures db in Dropping(more, rel)
    {
      var i :| 0 <= i < |queued| && queued[i].pkg.rel == rel && queued[i].db == db;
      assert more[i] == queued[i];
    }
    assert more[|queued|] == q;
  }

  lemma NoneDropping(queued: seq<Queued>, rel: string)
    requires First(queued, rel).None?
    ensures Dropping(queued, rel) == {}
  {
    FirstIsQueued(queued, rel);
  }

  /* ---- The queue in terms of what was queued ---- */

  ghost predicate DistinctPaths(queue: seq<Entry>) {
    forall i, j :: 0 <= i < j < |queue| ==> queue[i].pkg.rel != queue[j].pkg.rel
  }

  lemma OneEntryPerPath(queued: seq<Queued>, queue: seq<Entry>)
    requires QueuedFrom(queued, queue)
    ensures DistinctPaths(queue)
    ensures forall rel :: HasEntry(queue, rel) <==> First(queued, rel).Some?
  {
    forall i, j | 0 <= i < j < |queue|
      ensures queue[i].pkg.rel != queue[j].pkg.rel
    {
      NeverBeforeItself(queue[i].pkg.rel);
    }
    forall rel
      ensures HasEntry(queue, rel) <==> First(queued, rel).Some?
    {
      FirstIsQueued(queued, rel);
    }
  }

  /** Some database that drops the path, in whatever spelling, is this one. */
  ghost predicate DropsCi(queued: seq<Queued>, db: string, low: string) {
    exists i :: 0 <= i < |queued| && queued[i].db == db && Lower(queued[i].pkg.rel) == low
  }

  lemma ConsumersAreQueued(queued: seq<Queued>, queue: seq<Entry>, db: string, low: string)
    requires QueuedFrom(queued, queue)
    ensures db in Consumers(queue, low) <==> DropsCi(queued, db, low)
  {
    if i :| 0 <= i < |queued| && queued[i].db == db && Lower(queued[i].pkg.rel) == low {
      var e :| e in queue && e.pkg.rel == queued[i].pkg.rel;
      assert queued[i].db in Dropping(queued, e.pkg.rel);
      var k :| 0 <= k < |queue| && queue[k] == e;
      assert db in queue[k].dbs;
    }
    if db in Consumers(queue, low) {
      var k :| 0 <= k < |queue| && Lower(queue[k].pkg.rel) == low && db in queue[k].dbs;
      assert queue[k] in queue && db in Dropping(queued, queue[k].pkg.rel);
      var i :| 0 <= i < |queued| && queued[i].pkg.rel == queue[k].pkg.rel && queued[i].db == db;
      assert DropsCi(queued, db, low);
    }
  }

  /** Every database that drops something is running. */
  ghost predicate DropsAreRunning(stores: map<string, Wrapper>, queued: seq<Queued>) {
    forall i :: 0 <= i < |queued| ==> queued[i].db in stores && stores[queued[i].db].store.basePath.Some?
  }

  lemma EntriesAreRunning(stores: map<string, Wrapper>, queued: seq<Queued>, queue: seq<Entry>)
    requires QueuedFrom(queued, queue) && DropsAreRunning(stores, queued)
    ensures AllRunning(stores, queue)
  {
    forall k, db | 0 <= k < |queue| && db in queue[k].dbs
      ensures db in stores && stores[db].store.basePath.Some?
    {
      assert queue[k] in queue && Merges(queued, queue[k]);
      var i :| 0 <= i < |queued| && queued[i].pkg.rel == queue[k].pkg.rel && queued[i].db == db;
    }
  }

  /* ---- What happens to a path ---- */

  /** A stored database claims the path in some case, and queued no spelling of it. */
  ghost predicate ClaimedOutside(stores: map<string, Wrapper>, queued: seq<Queued>, low: string) {
    exists db :: db in stores && Claims(stores[db].store, Files, low) && !DropsCi(queued, db, low)
  }

  /** The spelling was queued, and the package that was queued first is not entangled with a failure. */
  ghost predicate Goes(x: Context, queued: seq<Queued>, rel: string) {
    First(queued, rel).Some? && !IsEntangledWith(First(queued, rel).value, x.failed)
  }

  lemma DroppableIffGoes(x: Context, queued: seq<Queued>, queue: seq<Entry>, low: string)
    requires QueuedFrom(queued, queue)
    ensures Droppable(x, queue, low) <==> exists rel :: Lower(rel) == low && Goes(x, queued, rel)
  {
    if e :| e in queue && Lower(e.pkg.rel) == low && !IsEntangledWith(e.pkg, x.failed) {
      assert Merges(queued, e) && Goes(x, queued, e.pkg.rel);
    }
    if rel :| Lower(rel) == low && Goes(x, queued, rel) {
      OneEntryPerPath(queued, queue);
      assert HasEntry(queue, rel);
      var e :| e in queue && e.pkg.rel == rel;
      assert Merges(queued, e);
    }
  }

  lemma ClaimsAgree(stores: map<string, Wrapper>, queued: seq<Queued>, queue: seq<Entry>, low: string)
    requires QueuedFrom(queued, queue)
    ensures ClaimedByOther(stores, queue, low) <==> ClaimedOutside(stores, queued, low)
  {
    forall db { ConsumersAreQueued(queued, queue, db, low); }
  }

  /**
   A path, in whatever case, is unlinked exactly when it was not processed in this run, no stored
   database claims it without dropping it, and in some spelling the package that was queued first
   is not entangled with a failed file.
   */
  lemma PathGoesIff(x: Context, stores: map<string, Wrapper>, queued: seq<Queued>, queue: seq<Entry>, processedInRun: set<string>,
                    protected: set<string>, low: string)
    requires QueuedFrom(queued, queue) && AllRunning(stores, queue) && Protects(stores, queue, processedInRun, protected)
    ensures Unlinked(ConsumeAll(x, Removals(stores, protected, {}, []), queue), low) <==>
              && low !in LowerAll(processedInRun) && !ClaimedOutside(stores, queued, low)
              && exists rel :: Lower(rel) == low && Goes(x, queued, rel)
  {
    UnlinksAreSafe(x, stores, queue, processedInRun, protected);
    DroppableIffGoes(x, queued, queue, low);
    ClaimsAgree(stores, queued, queue, low);
    if Droppable(x, queue, low) {
      var e :| e in queue && Lower(e.pkg.rel) == low && !IsEntangledWith(e.pkg, x.failed);
      var i :| 0 <= i < |queue| && queue[i] == e;
      assert Lower(queue[i].pkg.rel) in Candidates(queue);
    }
  }

  /** Of the spellings that go, the first one in the order of the queue. */
  ghost predicate GoesFirst(x: Context, queued: seq<Queued>, rel: string) {
    && Goes(x, queued, rel)
    && forall other :: Lower(other) == Lower(rel) && other != rel && Goes(x, queued, other) ==> Before(rel, other)
  }

  lemma TakesIffGoesFirst(x: Context, queued: seq<Queued>, queue: seq<Entry>, protected: set<string>, i: nat)
    requires QueuedFrom(queued, queue) && i < |queue|
    ensures Takes(x, protected, queue, i) <==> Lower(queue[i].pkg.rel) !in protected && GoesFirst(x, queued, queue[i].pkg.rel)
  {
    OneEntryPerPath(queued, queue);
    var rel := queue[i].pkg.rel;
    assert queue[i] in queue && Merges(queued, queue[i]);
    if Takes(x, protected, queue, i) {
      forall other | Lower(other) == Lower(rel) && other != rel && Goes(x, queued, other)
        ensures Before(rel, other)
      {
        assert HasEntry(queue, other);
        var e :| e in queue && e.pkg.rel == other;
        var j :| 0 <= j < |queue| && queue[j] == e;
        assert Merges(queued, e);
        assert j > i;
      }
    }
    if GoesFirst(x, queued, rel) {
      forall j | 0 <= j < i && Lower(queue[j].pkg.rel) == Lower(rel)
        ensures IsEntangledWith(queue[j].pkg, x.failed)
      {
        assert queue[j] in queue && Merges(queued, queue[j]);
        if !IsEntangledWith(queue[j].pkg, x.failed) {
          assert Goes(x, queued, queue[j].pkg.rel);
          BeforeIsTransitive(queue[j].pkg.rel, rel, queue[j].pkg.rel);
          NeverBeforeItself(queue[j].pkg.rel);
        }
      }
    }
  }

  /**
   What is unlinked, place by place: for each path that is neither processed in this run nor
   claimed by a database that keeps it, the spelling that comes first of those whose first package
   is not entangled; and of that package exactly its own place, the place below the base path if it
   is external, and every copy that a database dropping this spelling records.
   */
  lemma PlaceGoesIff(x: Context, stores: map<string, Wrapper>, queued: seq<Queued>, queue: seq<Entry>, processedInRun: set<string>,
                     protected: set<string>, u: Unlink)
    requires QueuedFrom(queued, queue) && AllRunning(stores, queue) && Protects(stores, queue, processedInRun, protected)
    ensures u in ConsumeAll(x, Removals(stores, protected, {}, []), queue).unlinks <==>
              && Lower(u.rel) !in LowerAll(processedInRun) && !ClaimedOutside(stores, queued, Lower(u.rel))
              && GoesFirst(x, queued, u.rel) && IsPlaceOf(x, stores, Dropping(queued, u.rel), First(queued, u.rel).value, u.full)
  {
    UnlinksArePlaces(x, Removals(stores, protected, {}, []), queue, u);
    OneEntryPerPath(queued, queue);
    ClaimsAgree(stores, queued, queue, Lower(u.rel));
    forall i | 0 <= i < |queue|
      ensures Takes(x, protected, queue, i) <==> Lower(queue[i].pkg.rel) !in protected && GoesFirst(x, queued, queue[i].pkg.rel)
      ensures First(queued, queue[i].pkg.rel) == Some(queue[i].pkg) && DbsOf(queue[i]) == Dropping(queued, queue[i].pkg.rel)
      ensures Lower(queue[i].pkg.rel) in Candidates(queue)
    {
      TakesIffGoesFirst(x, queued, queue, protected, i);
      assert queue[i] in queue && Merges(queued, queue[i]);
    }
    if GoesFirst(x, queued, u.rel) {
      assert HasEntry(queue, u.rel);
      var e :| e in queue && e.pkg.rel == u.rel;
      var i :| 0 <= i < |queue| && queue[i] == e;
      assert Takes(x, protected, queue, i) <==> Lower(u.rel) !in protected;
    }
  }

  /**
   A database loses its records of a path, in exactly this spelling, exactly when it queued the
   path and the package queued first, by whichever database, is not entangled.
   */
  lemma RecordGoesIff(x: Context, stores: map<string, Wrapper>, queued: seq<Queued>, queue: seq<Entry>, protected: set<string>,
                      db: string, p: string)
    requires QueuedFrom(queued, queue) && AllRunning(stores, queue) && db in stores
    ensures var t := ConsumeAll(x, Removals(stores, protected, {}, []), queue);
            && db in t.stores
            && if db in Dropping(queued, p) && Goes(x, queued, p) then !Records(t.stores[db].store, p)
               else SameRecords(stores[db].store, t.stores[db].store, p)
  {
    RecordsDroppedExactly(x, Removals(stores, protected, {}, []), queue, db, p);
    OneEntryPerPath(queued, queue);
    if db in Dropping(queued, p) && Goes(x, queued, p) {
      assert HasEntry(queue, p);
      var e :| e in queue && e.pkg.rel == p;
      assert Merges(queued, e);
      assert DroppedBy(x, queue, db, p);
    } else if e :| e in queue && e.pkg.rel == p && db in e.dbs && !IsEntangledWith(e.pkg, x.failed) {
      assert Merges(queued, e);
    }
  }

  /**
   What an entangled package of a database gets: its spelling is neither unlinked nor forgotten
   when the package queued first in that spelling is entangled too; otherwise the database's
   record is gone, and so is the file unless the path is protected.
   */
  lemma EntangledPackageStaysIff(x: Context, stores: map<string, Wrapper>, queued: seq<Queued>, queue: seq<Entry>,
                                 processedInRun: set<string>, protected: set<string>, q: Queued)
    requires QueuedFrom(queued, queue) && AllRunning(stores, queue) && Protects(stores, queue, processedInRun, protected)
    requires q in queued && IsEntangledWith(q.pkg, x.failed) && q.db in stores
    ensures var t, rel := ConsumeAll(x, Removals(stores, protected, {}, []), queue), q.pkg.rel;
            && q.db in t.stores
            && if Goes(x, queued, rel) then
                 !Records(t.stores[q.db].store, rel) && (Unlinked(t, Lower(rel)) <==> Lower(rel) !in protected)
               else
                 SameRecords(stores[q.db].store, t.stores[q.db].store, rel) && forall u :: u in t.unlinks ==> u.rel != rel
  {
    var r := Removals(stores, protected, {}, []);
    RecordGoesIff(x, stores, queued, queue, protected, q.db, q.pkg.rel);
    UnlinksAreSafe(x, stores, queue, processedInRun, protected);
    DroppableIffGoes(x, queued, queue, Lower(q.pkg.rel));
    var i :| 0 <= i < |queued| && queued[i] == q;
    assert queued[i].pkg.rel == q.pkg.rel && q.db in Dropping(queued, q.pkg.rel);
    forall u | u in ConsumeAll(x, r, queue).unlinks && u.rel == q.pkg.rel
      ensures Goes(x, queued, q.pkg.rel)
    {
      var e :| e in queue && e.pkg.rel == u.rel && !IsEntangledWith(e.pkg, x.failed);
      assert Merges(queued, e);
    }
  }

  /* ---- Two entangled packages that are not protected ---- */

  function OneFile(path: string): Wrapper {
    Wrapper(DbStore(Paths(map[path := map[]], map[]), None, map[], None, Some("/media/fat")), NoFingerprint, Additions(map[], map[]), false)
  }

  function PkgOf(rel: string, tangles: seq<string>): Pkg { Pkg(rel, "/media/fat/" + rel, false, Some("/media/fat"), tangles) }

  const SameSpelling := [Queued("two", PkgOf("A", [])), Queued("one", PkgOf("A", ["b"]))]
  const SameStores := map["one" := OneFile("A"), "two" := OneFile("A")]
  const SameQueue := [Entry(PkgOf("A", []), ["two", "one"])]

  lemma SameQueueMerges()
    ensures QueuedFrom(SameSpelling, SameQueue)
  {
    assert First(SameSpelling, "A") == Some(PkgOf("A", []));
    assert SameSpelling[0].db in Dropping(SameSpelling, "A") && SameSpelling[1].db in Dropping(SameSpelling, "A");
    assert SameQueue[0] in SameQueue && SameQueue[0].pkg.rel == "A";
    var dbs := SameQueue[0].dbs;
    assert dbs[0] == "two" && dbs[1] == "one";
  }

  /**
   The same spelling: the second database's package is entangled with a file that failed, but the
   first one's, which the box keeps, is not. The file is unlinked and both databases forget it.
   */
  lemma FirstPackageDecides()
    ensures var x, q := Context("/media/fat", {"b"}), SameSpelling[1];
            && QueuedFrom(SameSpelling, SameQueue) && AllRunning(SameStores, SameQueue) && Protects(SameStores, SameQueue, {}, {})
            && IsEntangledWith(q.pkg, x.failed) && Records(SameStores[q.db].store, q.pkg.rel)
            && var t := ConsumeAll(x, Removals(SameStores, {}, {}, []), SameQueue);
               Unlinked(t, Lower(q.pkg.rel)) && q.db in t.stores && !Records(t.stores[q.db].store, q.pkg.rel)
  {
    var x, q := Context("/media/fat", {"b"}), SameSpelling[1];
    SameQueueMerges();
    assert Lower("A") == "a" && Lower("b") == "b" && "b" in q.pkg.tangles;
    assert Candidates(SameQueue) == {"a"} by {
      assert Lower(SameQueue[0].pkg.rel) in Candidates(SameQueue);
    }
    assert Consumers(SameQueue, "a") == {"one", "two"} by {
      assert SameQueue[0].dbs[0] in SameQueue[0].dbs && SameQueue[0].dbs[1] in SameQueue[0].dbs;
    }
    assert Protects(SameStores, SameQueue, {}, {});
    assert q in SameSpelling && First(SameSpelling, "A") == Some(PkgOf("A", []));
    EntangledPackageStaysIff(x, SameStores, SameSpelling, SameQueue, {}, {}, q);
  }

  const TwoSpellings := [Queued("one", PkgOf("A", ["b"])), Queued("two", PkgOf("a", []))]
  const TwoStores := map["one" := OneFile("A"), "two" := OneFile("a")]
  const TwoQueue := [Entry(PkgOf("A", ["b"]), ["one"]), Entry(PkgOf("a", []), ["two"])]

  /** Two spellings of one path stay two entries. */
  lemma SpellingsAreNotMerged()
    ensures QueuedFrom(TwoSpellings, TwoQueue)
  {
    assert First(TwoSpellings, "A") == Some(PkgOf("A", ["b"]));
    assert TwoSpellings[1..] == [TwoSpellings[1]];
    assert First(TwoSpellings, "a") == First(TwoSpellings[1..], "a") == Some(PkgOf("a", []));
    assert TwoSpellings[0].db in Dropping(TwoSpellings, "A") && TwoSpellings[1].db in Dropping(TwoSpellings, "a");
    assert TwoQueue[0] in TwoQueue && TwoQueue[1] in TwoQueue;
    assert TwoQueue[0].pkg.rel == "A" && TwoQueue[1].pkg.rel == "a";
    assert Before("A", "a");
  }

  lemma TwoSpellingsUnprotected()
    ensures Lower("A") == "a" == Lower("a") && Candidates(TwoQueue) == {"a"}
    ensures !ClaimedByOther(TwoStores, TwoQueue, "a") && Protects(TwoStores, TwoQueue, {}, {})
  {
    assert Lower("A") == "a" == Lower("a");
    assert Lower(TwoQueue[0].pkg.rel) in Candidates(TwoQueue);
    assert Consumers(TwoQueue, "a") == {"one", "two"} by {
      assert "one" in TwoQueue[0].dbs && "two" in TwoQueue[1].dbs;
    }
  }

  lemma TwoSpellingsGo()
    ensures var x := Context("/media/fat", {"b"});
            IsEntangledWith(TwoSpellings[0].pkg, x.failed) && !Goes(x, TwoSpellings, "A") && Droppable(x, TwoQueue, "a")
  {
    assert Lower("b") == "b" && "b" in TwoSpellings[0].pkg.tangles;
    assert First(TwoSpellings, "A") == Some(PkgOf("A", ["b"]));
    assert TwoQueue[1] in TwoQueue && Lower("a") == "a";
  }

  /**
   Two spellings: the only package in the first spelling is entangled with a file that failed, and
   the path is unlinked all the same because of the second spelling.
   */
  lemma EntangledFileCanBeUnlinked()
    ensures var x, q := Context("/media/fat", {"b"}), TwoSpellings[0];
            && QueuedFrom(TwoSpellings, TwoQueue) && AllRunning(TwoStores, TwoQueue) && Protects(TwoStores, TwoQueue, {}, {})
            && IsEntangledWith(q.pkg, x.failed) && !Goes(x, TwoSpellings, q.pkg.rel)
            && Unlinked(ConsumeAll(x, Removals(TwoStores, {}, {}, []), TwoQueue), Lower(q.pkg.rel))
  {
    SpellingsAreNotMerged();
    TwoSpellingsUnprotected();
    TwoSpellingsGo();
    UnlinksAreSafe(Context("/media/fat", {"b"}), TwoStores, TwoQueue, {}, {});
  }
}
