/**
 Zips and the store: rebuilding a zip's index from what was stored, and keeping the paths of
 processed zips out of the removal of their database (src/downloader/local_store_wrapper.py,
 jobs/wait_db_zips_worker.py, jobs/process_db_index_worker.py).
 */
module ZipIndex {
  import opened Prelude
  import opened Store
  import opened FileFilter
  import ImporterJobs
  import Scheduler
  import Tags
  import Waiter

  /* ---- Regrouping by zip ---- */

  function FilteredOf(s: DbStore, z: string): Paths { if s.filtered.Some? && z in s.filtered.value then s.filtered.value[z] else NoPaths }

  /** The entry for p if it belongs to the zip. */
  function OfZip(m: map<string, Desc>, z: string, p: string): Option<Desc> {
    if p in m && ZipIdOf(m[p]) == Some(z) then Some(m[p]) else None
  }

  function Over<T>(a: Option<T>, b: Option<T>): Option<T> { if b.Some? then b else a }

  function Entry(grouped: map<string, Paths>, kind: Kind, z: string, p: string): Option<Desc> { Lookup(HeldBy(grouped, z).Of(kind), p) }

  function OnDriveOfZip(s: DbStore, kind: Kind, z: string, d: string, p: string): Option<Desc> {
    if d in Drives(s) then OfZip(Drives(s)[d].Of(kind), z, p) else None
  }

  /** From the base section, replaced by what the drives say, in their order. */
  function Winner(s: DbStore, drives: seq<string>, kind: Kind, z: string, p: string): Option<Desc> {
    if drives == [] then OfZip(s.base.Of(kind), z, p)
    else
      var n := |drives| - 1;
      Over(Winner(s, drives[..n], kind, z, p), OnDriveOfZip(s, kind, z, drives[n], p))
  }

  /** What regrouping has for a path of a zip: the base entry, then the last drive's, then the filtered one. */
  function Regrouped(s: DbStore, drives: seq<string>, kind: Kind, z: string, p: string): Option<Desc> {
    Over(Winner(s, drives, kind, z, p), Lookup(FilteredOf(s, z).Of(kind), p))
  }

  /** Gathers one section's entries by zip, replacing earlier ones. */
  method Gather(grouped: map<string, Paths>, kind: Kind, entries: map<string, Desc>) returns (r: map<string, Paths>)
    ensures forall z, p :: Entry(r, kind, z, p) == Over(Entry(grouped, kind, z, p), OfZip(entries, z, p))
    ensures forall other, z, p :: other != kind ==> Entry(r, other, z, p) == Entry(grouped, other, z, p)
  {
    r := grouped;
    var rest := entries.Keys;
    while rest != {}
      invariant rest <= entries.Keys
      invariant forall z, p ::
                  Entry(r, kind, z, p) == if p in rest then Entry(grouped, kind, z, p) else Over(Entry(grouped, kind, z, p), OfZip(entries, z, p))
      invariant forall other, z, p :: other != kind ==> Entry(r, other, z, p) == Entry(grouped, other, z, p)
      decreases rest
    {
      var p :| p in rest;
      if ZipIdOf(entries[p]).Some? {
        r := AddFiltered(r, kind, p, entries[p]);
      }
      rest := rest - {p};
    }
  }

  method GatherDrives(grouped: map<string, Paths>, kind: Kind, s: DbStore, drives: seq<string>) returns (r: map<string, Paths>)
    requires forall d :: d in drives ==> d in Drives(s)
    requires forall z, p :: Entry(grouped, kind, z, p) == OfZip(s.base.Of(kind), z, p)
    ensures forall other, z, p :: other != kind ==> Entry(r, other, z, p) == Entry(grouped, other, z, p)
    ensures forall z, p :: Entry(r, kind, z, p) == Winner(s, drives, kind, z, p)
  {
    r := grouped;
    for i := 0 to |drives|
      invariant forall other, z, p :: other != kind ==> Entry(r, other, z, p) == Entry(grouped, other, z, p)
      invariant forall z, p :: Entry(r, kind, z, p) == Winner(s, drives[..i], kind, z, p)
    {
      assert drives[..i + 1][..i] == drives[..i];
      r := Gather(r, kind, Drives(s)[drives[i]].Of(kind));
    }
    assert drives[..|drives|] == drives;
  }

  method GatherFiltered(grouped: map<string, Paths>, s: DbStore) returns (r: map<string, Paths>)
    ensures forall kind, z, p :: Entry(r, kind, z, p) == Over(Entry(grouped, kind, z, p), Lookup(FilteredOf(s, z).Of(kind), p))
  {
    r := grouped;
    if s.filtered.None? {
      return;
    }
    var data := s.filtered.value;
    var rest := data.Keys;
    while rest != {}
      invariant rest <= data.Keys
      invariant forall kind, z, p ::
                  Entry(r, kind, z, p) == if z in rest then Entry(grouped, kind, z, p)
                                          else Over(Entry(grouped, kind, z, p), Lookup(FilteredOf(s, z).Of(kind), p))
      decreases rest
    {
      var z :| z in rest;
      var was := HeldBy(r, z);
      r := r[z := Paths(was.files + data[z].files, was.folders + data[z].folders)];
      rest := rest - {z};
    }
  }

  /** A zip that goes to external drives: each of its entries is marked so. */
  predicate IsPext(s: DbStore, z: string) {
    z in s.zips && "target_folder_path" in s.zips[z].desc && "path" in s.zips[z].desc && s.zips[z].desc["path"] == Text("pext")
  }

  function MarkAll(m: map<string, Desc>): map<string, Desc> { map p | p in m :: m[p]["path" := Text("pext")] }

  /** What regrouping hands out for a description. */
  function Shown(s: DbStore, z: string, desc: Desc): Desc { if IsPext(s, z) then desc["path" := Text("pext")] else desc }

  function MarkedFor(s: DbStore, z: string, e: Option<Desc>): Option<Desc> { if e.Some? then Some(Shown(s, z, e.value)) else None }

  /** `drives` lists the drives in the order of the store's dictionary. */
  ghost predicate Orders(drives: seq<string>, s: DbStore) { forall d :: d in drives <==> d in Drives(s) }

  /** The summaries of all zips: what regrouping gives, with the mark where it applies. */
  method ZipSummaries(s: DbStore, drives: seq<string>) returns (summaries: map<string, Paths>)
    requires Orders(drives, s)
    ensures forall kind, z, p :: Entry(summaries, kind, z, p) == MarkedFor(s, z, Regrouped(s, drives, kind, z, p))
  {
    var grouped := Group(s, drives);
    summaries := grouped;
    var rest := grouped.Keys;
    while rest != {}
      invariant rest <= grouped.Keys
      invariant forall kind, z, p ::
                  Entry(summaries, kind, z, p) == if z in rest then Entry(grouped, kind, z, p) else MarkedFor(s, z, Entry(grouped, kind, z, p))
      decreases rest
    {
      var z :| z in rest;
      if IsPext(s, z) {
        summaries := summaries[z := Paths(MarkAll(grouped[z].files), MarkAll(grouped[z].folders))];
      }
      rest := rest - {z};
    }
  }

  method Group(s: DbStore, drives: seq<string>) returns (grouped: map<string, Paths>)
    requires Orders(drives, s)
    ensures forall kind, z, p :: Entry(grouped, kind, z, p) == Regrouped(s, drives, kind, z, p)
  {
    var none: map<string, Paths> := map[];
    var a := Gather(none, Files, s.base.files);
    var b := Gather(a, Folders, s.base.folders);
    var c := GatherDrives(b, Files, s, drives);
    var d := GatherDrives(c, Folders, s, drives);
    grouped := GatherFiltered(d, s);
    forall kind: Kind, z, p
      ensures Entry(grouped, kind, z, p) == Regrouped(s, drives, kind, z, p)
    {
      assert Entry(d, kind, z, p) == Winner(s, drives, kind, z, p);
    }
  }

  /* ---- Taking processed zips out ---- */

  /** An index is what its job's filter has left in it. */
  function AllOf(indexes: seq<Paths>, kind: Kind): set<string> { set i, p | 0 <= i < |indexes| && p in indexes[i].Of(kind) :: p }

  function Less(section: Paths, indexes: seq<Paths>): Paths {
    Paths(section.files - AllOf(indexes, Files), section.folders - AllOf(indexes, Folders))
  }

  function DeselectAll(s: DbStore, indexes: seq<Paths>): DbStore {
    DbStore(Less(s.base, indexes),
            if s.external.None? then None else Some(map d | d in s.external.value :: Less(s.external.value[d], indexes)),
            map[], None, s.basePath)
  }

  function AllPaths(s: DbStore, kind: Kind): set<string> {
    s.base.Of(kind).Keys + set d, p | d in Drives(s) && p in Drives(s)[d].Of(kind) :: p
  }

  /** What the index of a database schedules for removal: stored paths that it does not list. */
  function ScheduledRemovals(s: DbStore, kind: Kind, present: set<string>): set<string> { AllPaths(s, kind) - present }

  lemma DeselectedExactly(s: DbStore, indexes: seq<Paths>, kind: Kind)
    ensures AllPaths(DeselectAll(s, indexes), kind) == AllPaths(s, kind) - AllOf(indexes, kind)
  {
    var t := DeselectAll(s, indexes);
    forall p | p in AllPaths(s, kind) && p !in AllOf(indexes, kind) && p !in s.base.Of(kind)
      ensures p in AllPaths(t, kind)
    {
      var d :| d in Drives(s) && p in Drives(s)[d].Of(kind);
      assert d in Drives(t) && p in Drives(t)[d].Of(kind);
    }
    forall p | p in AllPaths(t, kind)
      ensures p in AllPaths(s, kind) && p !in AllOf(indexes, kind)
    {
      if p !in t.base.Of(kind) {
        var d :| d in Drives(t) && p in Drives(t)[d].Of(kind);
        assert d in Drives(s) && p in Drives(s)[d].Of(kind);
      }
    }
  }

  /* ---- The waiting worker ---- */

  /** What a job is to the waiter: `zip` is the index of a ProcessZipIndexJob, `full` says it ran out of space. */
  datatype ZipJob = ZipJob(zip: Option<Paths>, full: bool)

  ghost predicate RanOutOfSpace(tags: seq<string>, failed: map<string, seq<Scheduler.Job>>, what: Scheduler.Job -> ZipJob) {
    exists t, j :: t in tags && j in Tags.Listed(failed, t) && what(j).zip.Some? && what(j).full
  }

  /** The jobs under the tags. */
  ghost predicate Under(j: Scheduler.Job, tags: seq<string>, lists: map<string, seq<Scheduler.Job>>) {
    exists t :: t in tags && j in Tags.Listed(lists, t)
  }

  /** Exactly the indexes of the completed zip jobs. */
  ghost predicate Gathered(tags: seq<string>, completed: map<string, seq<Scheduler.Job>>, what: Scheduler.Job -> ZipJob, indexes: seq<Paths>) {
    && (forall j: Scheduler.Job :: Under(j, tags, completed) && what(j).zip.Some? ==> what(j).zip.value in indexes)
    && (forall x :: x in indexes ==> exists j: Scheduler.Job :: Under(j, tags, completed) && what(j).zip == Some(x))
  }

  /** What the worker does with the reports: nothing when a zip ran out of space. */
  ghost predicate Waits(tags: seq<string>, completed: map<string, seq<Scheduler.Job>>, failed: map<string, seq<Scheduler.Job>>,
                        what: Scheduler.Job -> ZipJob, s: DbStore, store: Option<DbStore>, indexes: seq<Paths>)
  {
    && (store.None? <==> RanOutOfSpace(tags, failed, what))
    && (store.Some? ==> Gathered(tags, completed, what, indexes) && store.value == DeselectAll(s, indexes))
  }

  /** Gathers the indexes of the completed zip jobs; gives up when a zip ran out of space. */
  method OperateOn(tags: seq<string>, completed: map<string, seq<Scheduler.Job>>, failed: map<string, seq<Scheduler.Job>>,
                   what: Scheduler.Job -> ZipJob, s: DbStore)
    returns (store: Option<DbStore>, ghost indexes: seq<Paths>)
    ensures Waits(tags, completed, failed, what, s, store, indexes)
  {
    indexes := [];
    var list: seq<Paths> := [];
    for i := 0 to |tags|
      invariant Gathered(tags[..i], completed, what, list) && !RanOutOfSpace(tags[..i], failed, what)
    {
      assert tags[..i + 1] == tags[..i] + [tags[i]];
      var added := IndexesOf(Tags.Listed(completed, tags[i]), what);
      GatheredOneMore(tags[..i], tags[i], completed, what, list, added);
      list := list + added;
      var full := AnyFull(Tags.Listed(failed, tags[i]), what);
      FullOneMore(tags, i, failed, what, full);
      if full {
        return None, list;
      }
    }
    assert tags[..|tags|] == tags;
    indexes := list;
    store := Some(DeselectAll(s, list));
  }

  method IndexesOf(jobs: seq<Scheduler.Job>, what: Scheduler.Job -> ZipJob) returns (list: seq<Paths>)
    ensures forall x :: x in list <==> exists j: Scheduler.Job :: j in jobs && what(j).zip == Some(x)
  {
    list := [];
    for k := 0 to |jobs|
      invariant forall x :: x in list <==> exists j: Scheduler.Job :: j in jobs[..k] && what(j).zip == Some(x)
    {
      assert jobs[..k + 1] == jobs[..k] + [jobs[k]];
      if what(jobs[k]).zip.Some? {
        list := list + [what(jobs[k]).zip.value];
      }
    }
    assert jobs[..|jobs|] == jobs;
  }

  method AnyFull(jobs: seq<Scheduler.Job>, what: Scheduler.Job -> ZipJob) returns (full: bool)
    ensures full <==> exists j: Scheduler.Job :: j in jobs && what(j).zip.Some? && what(j).full
  {
    for k := 0 to |jobs|
      invariant forall j: Scheduler.Job :: j in jobs[..k] && what(j).zip.Some? ==> !what(j).full
    {
      assert jobs[..k + 1] == jobs[..k] + [jobs[k]];
      if what(jobs[k]).zip.Some? && what(jobs[k]).full {
        return true;
      }
    }
    assert jobs[..|jobs|] == jobs;
    full := false;
  }

  lemma GatheredOneMore(tags: seq<string>, tag: string, completed: map<string, seq<Scheduler.Job>>, what: Scheduler.Job -> ZipJob,
                        list: seq<Paths>, added: seq<Paths>)
    requires Gathered(tags, completed, what, list)
    requires forall x :: x in added <==> exists j: Scheduler.Job :: j in Tags.Listed(completed, tag) && what(j).zip == Some(x)
    ensures Gathered(tags + [tag], completed, what, list + added)
  {
    assert tag in tags + [tag];
    forall j: Scheduler.Job
      ensures Under(j, tags + [tag], completed) <==> Under(j, tags, completed) || j in Tags.Listed(completed, tag)
    {
      UnderOneMore(j, tags, tag, completed);
    }
  }

  lemma UnderOneMore(j: Scheduler.Job, tags: seq<string>, tag: string, lists: map<string, seq<Scheduler.Job>>)
    ensures Under(j, tags + [tag], lists) <==> Under(j, tags, lists) || j in Tags.Listed(lists, tag)
  {
    assert tag in tags + [tag];
    if t :| t in tags && j in Tags.Listed(lists, t) {
      assert t in tags + [tag];
    }
  }

  lemma FullOneMore(tags: seq<string>, i: nat, failed: map<string, seq<Scheduler.Job>>, what: Scheduler.Job -> ZipJob, full: bool)
    requires i < |tags| && !RanOutOfSpace(tags[..i], failed, what)
    requires full <==> exists j: Scheduler.Job :: j in Tags.Listed(failed, tags[i]) && what(j).zip.Some? && what(j).full
    ensures RanOutOfSpace(tags[..i + 1], failed, what) <==> full
    ensures full ==> RanOutOfSpace(tags, failed, what)
  {
    assert tags[..i + 1] == tags[..i] + [tags[i]];
    assert tags[i] in tags && tags[i] in tags[..i + 1];
    forall t | t in tags[..i + 1] && t != tags[i] ensures t in tags[..i] {}
  }

  /* ---- What is scheduled for removal ---- */

  /** Some completed zip job under the tags still has the path in its index. */
  ghost predicate KeptByAZip(tags: seq<string>, completed: map<string, seq<Scheduler.Job>>, what: Scheduler.Job -> ZipJob, kind: Kind, p: string) {
    exists j: Scheduler.Job :: Under(j, tags, completed) && what(j).zip.Some? && p in what(j).zip.value.Of(kind)
  }

  /** Exactly the stored paths that neither the database's own index nor the index of a completed zip has. */
  lemma ScheduledExactly(tags: seq<string>, completed: map<string, seq<Scheduler.Job>>, failed: map<string, seq<Scheduler.Job>>,
                         what: Scheduler.Job -> ZipJob, s: DbStore, store: Option<DbStore>, indexes: seq<Paths>, kind: Kind,
                         present: set<string>, p: string)
    requires Waits(tags, completed, failed, what, s, store, indexes) && store.Some?
    ensures p in ScheduledRemovals(store.value, kind, present) <==>
              p in AllPaths(s, kind) && p !in present && !KeptByAZip(tags, completed, what, kind, p)
  {
    DeselectedExactly(s, indexes, kind);
    if p in AllOf(indexes, kind) {
      var i :| 0 <= i < |indexes| && p in indexes[i].Of(kind);
      assert indexes[i] in indexes;
    }
    if j: Scheduler.Job :| Under(j, tags, completed) && what(j).zip.Some? && p in what(j).zip.value.Of(kind) {
      var i :| 0 <= i < |indexes| && indexes[i] == what(j).zip.value;
      assert p in indexes[i].Of(kind);
    }
  }

  /** Another zip job than this one under the tags still has the path. */
  ghost predicate KeptByAnother(tags: seq<string>, completed: map<string, seq<Scheduler.Job>>, what: Scheduler.Job -> ZipJob, kind: Kind,
                                p: string, job: Scheduler.Job)
  {
    exists j: Scheduler.Job :: j != job && Under(j, tags, completed) && what(j).zip.Some? && p in what(j).zip.value.Of(kind)
  }

  /**
   Zip protection over whole runs. `seen` ends while a worker waits for the zips of its database
   and finds nothing in progress under the tag of one; it reads the lists after `later`. A
   ProcessZipIndexJob of that zip has completed, and its filter left `kept` of the index. Whatever
   the interleaving, the store and the database's own index: no kept path is scheduled for
   removal; a path that the filter took out is, when it is stored, exactly when neither the
   database nor another completed zip has it.
   */
  lemma NoCompletedZipLosesAPath(c: Scheduler.Config, info: Scheduler.Job -> ImporterJobs.Info, jobs: seq<Scheduler.Job>,
                                 seen: seq<Scheduler.Action>, later: seq<Scheduler.Action>, i: nat, tags: seq<string>, tag: string, db: string,
                                 what: Scheduler.Job -> ZipJob, s: DbStore, store: Option<DbStore>, indexes: seq<Paths>, kind: Kind,
                                 present: set<string>, e: Scheduler.End, filter: Option<Filter>, index: Paths, kept: Paths,
                                 aside: map<string, Paths>, p: string)
    requires ImporterJobs.ZipTagged(info, tag, db) && ImporterJobs.Roots(info, jobs, db) && tag in tags
    requires Scheduler.Legal(c, Scheduler.Loaded(c, jobs), seen) && ImporterJobs.StartsChainsRun(c, info, Scheduler.Loaded(c, jobs), seen)
    requires ImporterJobs.FollowsRun(c, info, Scheduler.Loaded(c, jobs), seen)
    requires var u := Scheduler.After(c, Scheduler.Loaded(c, jobs), seen);
             && !u.cancelled && ImporterJobs.Waiting(info, u, i, db) && Waiter.Busy(u, tag) == {}
             && Scheduler.Legal(c, u, later) && ImporterJobs.FollowsRun(c, info, u, later)
    requires var t := Scheduler.After(c, Scheduler.After(c, Scheduler.Loaded(c, jobs), seen), later);
             && e in t.ended && tag in e.job.tags && e.how.AsCompleted? && what(e.job).zip == Some(kept)
             && Waits(tags, Tags.ReportOf(t.records).completed, Tags.ReportOf(t.records).failed, what, s, store, indexes)
    requires Selects(filter, index, kept, aside) && store.Some?
    ensures p in kept.Of(kind) ==> p !in ScheduledRemovals(store.value, kind, present)
    ensures p in index.Of(kind) && p !in kept.Of(kind) && p in AllPaths(s, kind) ==>
              (p in ScheduledRemovals(store.value, kind, present) <==>
                 var t := Scheduler.After(c, Scheduler.After(c, Scheduler.Loaded(c, jobs), seen), later);
                 p !in present && !KeptByAnother(tags, Tags.ReportOf(t.records).completed, what, kind, p, e.job))
  {
    ImporterJobs.WaiterLeavesAfterTheChain(c, info, jobs, seen, later, i, tag, db);
    var t := Scheduler.After(c, Scheduler.After(c, Scheduler.Loaded(c, jobs), seen), later);
    var completed := Tags.ReportOf(t.records).completed;
    assert e.job in Tags.Listed(completed, tag) && Under(e.job, tags, completed);
    ScheduledExactly(tags, completed, Tags.ReportOf(t.records).failed, what, s, store, indexes, kind, present, p);
  }
}
