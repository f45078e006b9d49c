/**
 What the removals, the settings and the clean-up of a store do, entry by entry, and that a store is
 marked for saving only when something that is saved changed (src/downloader/local_store_wrapper.py).
 */
module StoreEffects {
  import opened Prelude
  import opened Store

  predicate IsRemoval(op: Op) {
    || op.OpRemoveLocal? || op.OpRemoveExternal? || op.OpRemoveFileFromZips?
    || op.OpRemoveLocalFolderFromZips? || op.OpRemoveExternalFolderFromZips?
  }

  /** The one entry of the base section, the one of a drive, or the file on every drive. */
  predicate Removes(op: Op, kind: Kind, loc: Option<string>, p: string) {
    match op
    case OpRemoveLocal(k, path) => k == kind && loc.None? && p == path
    case OpRemoveExternal(k, drive, path) => k == kind && loc == Some(drive) && p == path
    case OpRemoveFileFromZips(path) => kind.Files? && loc.Some? && p == path
    case OpRemoveExternalFolderFromZips(drive, path) => kind.Folders? && loc == Some(drive) && p == path
    case _ => false
  }

  /** And what the descriptions of zips still listed. */
  predicate Unlists(op: Op, kind: Kind, p: string) {
    match op
    case OpRemoveFileFromZips(path) => kind.Files? && p == path
    case OpRemoveLocalFolderFromZips(path) => kind.Folders? && p == path
    case OpRemoveExternalFolderFromZips(_, path) => kind.Folders? && p == path
    case _ => false
  }

  /** A removal takes exactly its entries away. */
  lemma RemovalEffects(w: Wrapper, op: Op, kind: Kind, loc: Option<string>, p: string)
    requires IsRemoval(op)
    ensures At(Do(w, op).store, kind, loc, p) == if Removes(op, kind, loc, p) then None else At(w.store, kind, loc, p)
  {
  }

  lemma RemovalUnlists(w: Wrapper, op: Op, z: string, kind: Kind, p: string)
    requires IsRemoval(op)
    ensures var v := Do(w, op);
            && v.store.zips.Keys == w.store.zips.Keys && v.store.filtered == w.store.filtered
            && v.store.basePath == w.store.basePath && v.figp == w.figp
            && (z in w.store.zips ==>
                  && v.store.zips[z].desc == w.store.zips[z].desc
                  && Lookup(v.store.zips[z].listed.Of(kind), p)
                     == if Unlists(op, kind, p) then None else Lookup(w.store.zips[z].listed.Of(kind), p))
  {
  }

  /** A setting is what it was set to, and nothing else changes. */
  lemma SettingEffects(w: Wrapper, path: string, f: Fingerprint, id: string, zip: Zip, same: bool)
    ensures Do(w, OpSetBasePath(path)).store == w.store.(basePath := Some(path))
    ensures Do(w, OpSetFingerprint(f)).figp == f && Do(w, OpSetFingerprint(f)).store == w.store
    ensures var v := Do(w, OpSetZip(id, zip, same));
            v.store == w.store.(zips := if id in w.store.zips && same then w.store.zips else w.store.zips[id := zip]) && v.figp == w.figp
  {
  }

  /** The clean-up loses no entry, and leaves no empty section. */
  lemma CleanupEffects(w: Wrapper, kind: Kind, loc: Option<string>, p: string)
    requires Apart(w)
    ensures var v := Do(w, OpCleanupExternals);
            && At(v.store, kind, loc, p) == At(w.store, kind, loc, p)
            && (forall d :: d in Drives(v.store) ==> Drives(v.store)[d] != NoPaths)
            && v.store.external != Some(map[])
            && v.store.zips == w.store.zips && v.store.filtered == w.store.filtered && v.figp == w.figp
  {
    if w.store.external.Some? {
      assert w.store.base.files - w.additions.files.Keys == w.store.base.files;
      assert w.store.base.folders - w.additions.folders.Keys == w.store.base.folders;
    }
  }

  /* ---- A mark means a change ---- */

  /** What is saved is another than before. */
  predicate SavedChanged(w: Wrapper, v: Wrapper) { v.figp != w.figp || v.store != w.store }

  lemma EntryDiffers(w: Wrapper, v: Wrapper, kind: Kind, loc: Option<string>, p: string)
    requires At(v.store, kind, loc, p) != At(w.store, kind, loc, p)
    ensures SavedChanged(w, v)
  {
  }

  lemma {:induction false} RemovedFromSome(w: Wrapper, drives: seq<string>, but: Option<string>, path: string) returns (d: string)
    requires !w.dirty && RemoveFromDrives(w, drives, but, path).dirty
    ensures OnDrive(w.store, Files, d, path) && d in drives && but != Some(d)
    decreases |drives|
  {
    if but != Some(drives[0]) && OnDrive(w.store, Files, drives[0], path) {
      d := drives[0];
    } else {
      d := RemovedFromSome(w, drives[1..], but, path);
    }
  }

  lemma CleanedSome(w: Wrapper, kind: Kind, path: string) returns (d: string)
    requires !w.dirty && CleanAdditions(w, kind, path).dirty
    ensures OnDrive(w.store, kind, d, path)
  {
    d :| d in w.store.external.value && path in w.store.external.value[d].Of(kind);
  }

  lemma AddEntryMarks(w: Wrapper, kind: Kind, path: string, desc: Desc)
    requires !w.dirty && AddEntry(w, kind, path, desc).dirty
    ensures SavedChanged(w, AddEntry(w, kind, path, desc))
  {
    var c, v := CleanAdditions(w, kind, path), AddEntry(w, kind, path, desc);
    if c.dirty {
      var d := CleanedSome(w, kind, path);
      EntryDiffers(w, v, kind, Some(d), path);
    } else {
      EntryDiffers(w, v, kind, None, path);
    }
  }

  lemma AddFileMarks(w: Wrapper, path: string, desc: Desc)
    requires !w.dirty && AddFile(w, path, desc).dirty
    ensures SavedChanged(w, AddFile(w, path, desc))
  {
    var u, v := RemoveFromDrives(w, AddedOn(w, path), None, path), AddFile(w, path, desc);
    RemoveFromDrivesFrame(w, AddedOn(w, path), None, path);
    AddFileStores(w, path, desc);
    if u.dirty {
      var d := RemovedFromSome(w, AddedOn(w, path), None, path);
      assert !OnDrive(v.store, Files, d, path);
    } else {
      assert u == w;
      AddEntryMarks(w, Files, path, desc);
    }
  }

  lemma AddExternalMarks(w: Wrapper, drive: string, path: string, desc: Desc, repeated: bool)
    requires !w.dirty && AddExternalFile(w, drive, path, desc, repeated).dirty
    ensures SavedChanged(w, AddExternalFile(w, drive, path, desc, repeated))
  {
    var v := AddExternalFile(w, drive, path, desc, repeated);
    var l := RemoveLocal(w, Files, path);
    var u := if repeated then w else RemoveFromDrives(l, AddedOn(w, path), Some(drive), path);
    RemoveFromDrivesFrame(l, AddedOn(w, path), Some(drive), path);
    if !u.dirty {
      assert u == w;
      EntryDiffers(w, v, Files, Some(drive), path);
    } else if l.dirty {
      EntryDiffers(w, v, Files, None, path);
    } else {
      var d := RemovedFromSome(l, AddedOn(w, path), Some(drive), path);
      assert OnDrive(w.store, Files, d, path) && !OnDrive(v.store, Files, d, path);
      EntryDiffers(w, v, Files, Some(d), path);
    }
  }

  lemma ZipsMarkChange(w: Wrapper, kind: Kind, path: string)
    requires exists z :: z in w.store.zips && path in w.store.zips[z].listed.Of(kind)
    ensures WithoutListed(w.store.zips, kind, path) != w.store.zips
  {
    var z :| z in w.store.zips && path in w.store.zips[z].listed.Of(kind);
    assert path !in WithoutListed(w.store.zips, kind, path)[z].listed.Of(kind);
  }

  lemma RemovalMarks(w: Wrapper, op: Op)
    requires IsRemoval(op) && !w.dirty && Do(w, op).dirty
    ensures SavedChanged(w, Do(w, op))
  {
    var v := Do(w, op);
    match op
    case OpRemoveLocal(kind, path) => EntryDiffers(w, v, kind, None, path);
    case OpRemoveExternal(kind, drive, path) => EntryDiffers(w, v, kind, Some(drive), path);
    case OpRemoveFileFromZips(path) =>
      if CleanAdditions(w, Files, path).dirty {
        var d := CleanedSome(w, Files, path);
        EntryDiffers(w, v, Files, Some(d), path);
      } else {
        ZipsMarkChange(w, Files, path);
      }
    case OpRemoveLocalFolderFromZips(path) => ZipsMarkChange(w, Folders, path);
    case OpRemoveExternalFolderFromZips(drive, path) =>
      if OnDrive(w.store, Folders, drive, path) {
        EntryDiffers(w, v, Folders, Some(drive), path);
      } else {
        ZipsMarkChange(w, Folders, path);
      }
  }

  /**
   A write marks the store only if something that is saved changed. Removing zips marks it in any
   case, and setting a zip's description does whenever it does not count as the stored one.
   */
  lemma MarkMeansChange(w: Wrapper, op: Op)
    requires !w.dirty && Do(w, op).dirty && !op.OpRemoveZipIds? && !op.OpSetZip?
    ensures SavedChanged(w, Do(w, op))
  {
    match op
    case OpAddFile(path, desc) => AddFileMarks(w, path, desc);
    case OpAddFolder(path, desc) => AddEntryMarks(w, Folders, path, desc);
    case OpAddExternalFile(drive, path, desc, repeated) => AddExternalMarks(w, drive, path, desc, repeated);
    case OpAddExternalFolder(drive, path, desc) => EntryDiffers(w, Do(w, op), Folders, Some(drive), path);
    case OpCleanupExternals => CleanupMarksChange(w);
    case _ => if IsRemoval(op) { RemovalMarks(w, op); }
  }

  lemma CleanupMarksChange(w: Wrapper)
    requires !w.dirty && CleanupExternals(w).dirty
    ensures SavedChanged(w, CleanupExternals(w))
  {
    var v := CleanupExternals(w);
    var kept := NonEmpty(w.store.external.value);
    if kept == w.store.external.value && kept != map[] {
      if p :| p in w.additions.files && p in w.store.base.files {
        EntryDiffers(w, v, Files, None, p);
      } else if p :| p in w.additions.folders && p in w.store.base.folders {
        EntryDiffers(w, v, Folders, None, p);
      }
    }
  }
}
