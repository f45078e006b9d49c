/**
 The write adapter itself: dictionaries changed in place, loop by loop, with the dirty mark.
 Every method is tied to the operation of module Store of the same name, so the theorems there
 (dirty mark, single location) are about these methods.
 */
module StoreWrapper {
  import opened Prelude
  import opened Store

  /** Compares two dictionaries key by key. */
  method EqualDicts(a: Desc, b: Desc) returns (equal: bool)
    ensures equal <==> a == b
  {
    if |a| != |b| {
      return false;
    }
    var rest := a.Keys;
    while rest != {}
      invariant rest <= a.Keys
      invariant forall k :: k in a.Keys - rest ==> k in b && a[k] == b[k]
      decreases rest
    {
      var k :| k in rest;
      if k !in b || a[k] != b[k] {
        return false;
      }
      rest := rest - {k};
    }
    SmallerSubset(a.Keys, b.Keys);
    equal := true;
  }

  method EqualDictsOrLhsBigger(stored: Desc, b: Desc) returns (same: bool)
    ensures same <==> Same(Folders, stored, b)
  {
    if |b| > |stored| {
      return false;
    }
    var rest := stored.Keys;
    while rest != {}
      invariant rest <= stored.Keys
      invariant forall k :: k in stored.Keys - rest && k in b ==> stored[k] == b[k]
      decreases rest
    {
      var k :| k in rest;
      if k in b && stored[k] != b[k] {
        return false;
      }
      rest := rest - {k};
    }
    same := true;
  }

  method EqualDescriptions(kind: Kind, stored: Desc, desc: Desc) returns (same: bool)
    ensures same <==> Same(kind, stored, desc)
  {
    if kind.Folders? {
      same := EqualDictsOrLhsBigger(stored, desc);
    } else {
      same := EqualDicts(stored, desc);
    }
  }

  /** What a zip wants to have in the store, section by section. */
  datatype Fragment = Fragment(
    files: seq<(string, Desc)>, folders: seq<(string, Desc)>,
    externalFiles: seq<(string, string, Desc)>, externalFolders: seq<(string, string, Desc)>)

  function AddOps(entries: seq<(string, Desc)>, kind: Kind): seq<Op> {
    seq(|entries|, i requires 0 <= i < |entries| =>
      if kind.Files? then OpAddFile(entries[i].0, entries[i].1) else OpAddFolder(entries[i].0, entries[i].1))
  }

  function AddExternalOps(entries: seq<(string, string, Desc)>, kind: Kind): seq<Op> {
    seq(|entries|, i requires 0 <= i < |entries| =>
      if kind.Files? then OpAddExternalFile(entries[i].0, entries[i].1, entries[i].2, false)
      else OpAddExternalFolder(entries[i].0, entries[i].1, entries[i].2))
  }

  function FragmentOps(f: Fragment): seq<Op> {
    AddOps(f.files, Files) + AddOps(f.folders, Folders)
    + (AddExternalOps(f.externalFiles, Files) + AddExternalOps(f.externalFolders, Folders))
  }

  lemma DoFragment(w: Wrapper, f: Fragment)
    ensures var a := DoAll(DoAll(w, AddOps(f.files, Files)), AddOps(f.folders, Folders));
            DoAll(w, FragmentOps(f))
              == DoAll(DoAll(a, AddExternalOps(f.externalFiles, Files)), AddExternalOps(f.externalFolders, Folders))
  {
    var a, b := AddOps(f.files, Files), AddOps(f.folders, Folders);
    var c, d := AddExternalOps(f.externalFiles, Files), AddExternalOps(f.externalFolders, Folders);
    DoAppend(w, a + b, c + d);
    DoAppend(w, a, b);
    DoAppend(DoAll(w, a + b), c, d);
  }

  class WriteOnlyStoreAdapter {
    var base: Paths
    var external: Option<map<string, Paths>>
    var zips: map<string, Zip>
    var filtered: Option<map<string, Paths>>
    var basePath: Option<string>
    var figp: Fingerprint
    var addedFiles: map<string, seq<string>>
    var addedFolders: map<string, seq<string>>
    var dirty: bool

    ghost function View(): Wrapper
      reads this
    {
      Wrapper(DbStore(base, external, zips, filtered, basePath), figp, Additions(addedFiles, addedFolders), dirty)
    }

    /** Notes, for every path that only drives hold, which drives do. */
    constructor (s: DbStore, f: Fingerprint)
      ensures Wraps(s, f, View())
      ensures Apart(View())
    {
      base, external, zips, filtered, basePath := s.base, s.external, s.zips, s.filtered, s.basePath;
      figp, dirty := f, false;
      new;
      addedFiles := NoteDrives(s, Files);
      addedFolders := NoteDrives(s, Folders);
    }

    static method NoteDrives(s: DbStore, kind: Kind) returns (known: map<string, seq<string>>)
      ensures Notes(s, kind, known)
    {
      known := map[];
      var drives := Drives(s).Keys;
      while drives != {}
        invariant drives <= Drives(s).Keys
        invariant forall p :: p in known <==> p !in s.base.Of(kind) && exists d :: d !in drives && OnDrive(s, kind, d, p)
        invariant forall p, d :: p in known ==> (d in known[p] <==> d !in drives && OnDrive(s, kind, d, p))
        decreases drives
      {
        var d :| d in drives;
        known := NotePaths(s, kind, known, d);
        drives := drives - {d};
      }
    }

    static method NotePaths(s: DbStore, kind: Kind, before: map<string, seq<string>>, d: string)
      returns (known: map<string, seq<string>>)
      requires d in Drives(s)
      ensures forall p :: p in known <==> p in before || (p in Drives(s)[d].Of(kind) && p !in s.base.Of(kind))
      ensures forall p :: p in known ==>
                known[p] == (if p in before then before[p] else [])
                            + (if p in Drives(s)[d].Of(kind) && p !in s.base.Of(kind) then [d] else [])
    {
      known := before;
      var entries := Drives(s)[d].Of(kind);
      var rest := entries.Keys;
      while rest != {}
        invariant rest <= entries.Keys
        invariant forall p :: p in known <==> p in before || (p in entries.Keys - rest && p !in s.base.Of(kind))
        invariant forall p :: p in known ==>
                    known[p] == (if p in before then before[p] else [])
                                + (if p in entries.Keys - rest && p !in s.base.Of(kind) then [d] else [])
        decreases rest
      {
        var p :| p in rest;
        if p !in s.base.Of(kind) {
          known := known[p := (if p in known then known[p] else []) + [d]];
        }
        rest := rest - {p};
      }
    }

    /* ---- Entries ---- */

    method RemoveLocalEntry(kind: Kind, path: string)
      modifies this`base, this`dirty
      ensures View() == RemoveLocal(old(View()), kind, path)
    {
      if path !in base.Of(kind) {
        return;
      }
      base := base.Without(kind, path);
      dirty := true;
    }

    method RemoveExternalEntry(kind: Kind, drive: string, path: string)
      modifies this`external, this`dirty
      ensures View() == RemoveExternal(old(View()), kind, drive, path)
    {
      if external.None? || drive !in external.value || path !in external.value[drive].Of(kind) {
        return;
      }
      external := Some(external.value[drive := external.value[drive].Without(kind, path)]);
      dirty := true;
    }

    method CleanExternalAdditions(kind: Kind, path: string)
      modifies this`external, this`dirty, this`addedFiles, this`addedFolders
      ensures View() == CleanAdditions(old(View()), kind, path)
    {
      if kind.Files? {
        addedFiles := addedFiles - {path};
      } else {
        addedFolders := addedFolders - {path};
      }
      if external.None? {
        return;
      }
      var m := external.value;
      var swept, changed := m, false;
      var rest := m.Keys;
      while rest != {}
        invariant rest <= m.Keys == swept.Keys
        invariant forall d :: d in m ==> swept[d] == if d in rest then m[d] else m[d].Without(kind, path)
        invariant changed <==> exists d :: d in m.Keys - rest && path in m[d].Of(kind)
        decreases rest
      {
        var d :| d in rest;
        if path in m[d].Of(kind) {
          swept := swept[d := m[d].Without(kind, path)];
          changed := true;
        } else {
          assert m[d].Of(kind) - {path} == m[d].Of(kind);
        }
        rest := rest - {d};
      }
      external := Some(swept);
      assert swept == Swept(m, kind, path);
      if changed {
        dirty := true;
      }
    }

    method AddEntry(kind: Kind, path: string, desc: Desc)
      modifies this
      ensures View() == Store.AddEntry(old(View()), kind, path, desc)
    {
      CleanExternalAdditions(kind, path);
      var tidy := if "zip_id" !in desc && "tags" in desc then desc - {"tags"} else desc;
      if path in base.Of(kind) {
        var same := EqualDescriptions(kind, base.Of(kind)[path], tidy);
        if same {
          return;
        }
      }
      base := base.With(kind, base.Of(kind)[path := tidy]);
      dirty := true;
    }

    method RemoveFromAddedDrives(path: string, but: Option<string>)
      modifies this`external, this`dirty
      ensures View() == RemoveFromDrives(old(View()), AddedOn(old(View()), path), but, path)
    {
      if path !in addedFiles {
        return;
      }
      var drives := addedFiles[path];
      for i := 0 to |drives|
        invariant addedFiles == old(addedFiles)
        invariant RemoveFromDrives(View(), drives[i..], but, path) == RemoveFromDrives(old(View()), drives, but, path)
      {
        assert drives[i..][1..] == drives[i + 1..];
        if but != Some(drives[i]) {
          RemoveExternalEntry(Files, drives[i], path);
        }
      }
    }

    method AddFile(path: string, desc: Desc)
      modifies this
      ensures View() == Do(old(View()), OpAddFile(path, desc))
    {
      RemoveFromAddedDrives(path, None);
      AddEntry(Files, path, desc);
    }

    method AddFolder(path: string, desc: Desc)
      modifies this
      ensures View() == Do(old(View()), OpAddFolder(path, desc))
    {
      AddEntry(Folders, path, desc);
    }

    method AddExternalEntry(kind: Kind, drive: string, path: string, desc: Desc)
      modifies this`external, this`dirty
      ensures View() == Store.AddExternalEntry(old(View()), kind, drive, path, desc)
    {
      var m := if external.None? then map[] else external.value;
      var section := if drive in m then m[drive] else NoPaths;
      var tidy := if "zip_id" !in desc && "tags" in desc then desc - {"tags"} else desc;
      if path in section.Of(kind) {
        var same := EqualDescriptions(kind, section.Of(kind)[path], tidy);
        if same {
          return;
        }
      }
      external := Some(m[drive := section.With(kind, section.Of(kind)[path := tidy])]);
      dirty := true;
    }

    method AddExternalFile(drive: string, path: string, desc: Desc, repeated: bool)
      modifies this
      ensures View() == Do(old(View()), OpAddExternalFile(drive, path, desc, repeated))
    {
      if !repeated {
        RemoveLocalEntry(Files, path);
        RemoveFromAddedDrives(path, Some(drive));
      }
      AddExternalEntry(Files, drive, path, desc);
    }

    /* ---- Zips ---- */

    method DropListed(kind: Kind, path: string)
      modifies this`zips, this`dirty
      ensures View() == RemoveFromZips(old(View()), kind, path)
    {
      var left, changed := zips, false;
      var rest := zips.Keys;
      while rest != {}
        invariant rest <= zips.Keys == left.Keys
        invariant forall z :: z in zips ==>
                    left[z] == if z in rest then zips[z] else zips[z].(listed := zips[z].listed.Without(kind, path))
        invariant changed <==> exists z :: z in zips.Keys - rest && path in zips[z].listed.Of(kind)
        decreases rest
      {
        var z :| z in rest;
        if path in zips[z].listed.Of(kind) {
          left := left[z := zips[z].(listed := zips[z].listed.Without(kind, path))];
          changed := true;
        } else {
          assert zips[z].listed.Of(kind) - {path} == zips[z].listed.Of(kind);
        }
        rest := rest - {z};
      }
      assert left == WithoutListed(zips, kind, path);
      zips := left;
      if changed {
        dirty := true;
      }
    }

    method RemoveFileFromZips(path: string)
      modifies this
      ensures View() == Do(old(View()), OpRemoveFileFromZips(path))
    {
      CleanExternalAdditions(Files, path);
      DropListed(Files, path);
    }

    method RemoveExternalFolderFromZips(drive: string, path: string)
      modifies this
      ensures View() == Do(old(View()), OpRemoveExternalFolderFromZips(drive, path))
    {
      addedFolders := addedFolders - {path};
      RemoveExternalEntry(Folders, drive, path);
      DropListed(Folders, path);
    }

    static method RemoveNonZipFields(m: map<string, Desc>, ids: seq<string>) returns (r: map<string, Desc>)
      ensures r == StripAll(m, ids)
    {
      r := m;
      var rest := m.Keys;
      while rest != {}
        invariant rest <= m.Keys == r.Keys
        invariant forall p :: p in m ==> r[p] == if p in rest then m[p] else Strip(m[p], ids)
        decreases rest
      {
        var p :| p in rest;
        var desc := r[p];
        if "zip_id" in desc && desc["zip_id"].Text? && desc["zip_id"].text in ids {
          desc := desc - {"zip_id"};
          if "tags" in desc {
            desc := desc - {"tags"};
          }
          assert desc == m[p] - {"zip_id", "tags"};
          r := r[p := desc];
        }
        rest := rest - {p};
      }
    }

    static method DropIds<V>(m: map<string, V>, ids: seq<string>) returns (r: map<string, V>)
      ensures r == m - SetOf(ids)
    {
      r := m;
      for k := 0 to |ids|
        invariant r == m - SetOf(ids[..k])
      {
        assert ids[..k + 1] == ids[..k] + [ids[k]];
        r := r - {ids[k]};
      }
      assert ids[..|ids|] == ids;
    }

    method DropFilteredIds(ids: seq<string>)
      modifies this`filtered
      ensures filtered == RemainingFiltered(old(filtered), ids)
    {
      if filtered.Some? {
        var f := DropIds(filtered.value, ids);
        filtered := if |f| == 0 then None else Some(f);
      }
    }

    /** The caller names stored zips, each once. */
    method RemoveZipIds(ids: seq<string>)
      requires forall i :: i in ids ==> i in zips
      modifies this
      ensures View() == Do(old(View()), OpRemoveZipIds(ids))
    {
      if |ids| == 0 {
        return;
      }
      zips := DropIds(zips, ids);
      var files := RemoveNonZipFields(base.files, ids);
      var folders := RemoveNonZipFields(base.folders, ids);
      base := Paths(files, folders);
      DropFilteredIds(ids);
      dirty := true;
    }

    static method DropEmpty(m: map<string, Paths>) returns (r: map<string, Paths>)
      ensures r == NonEmpty(m)
    {
      r := m;
      var rest := m.Keys;
      while rest != {}
        invariant rest <= m.Keys
        invariant forall d :: d in r <==> d in m && (d in rest || m[d] != NoPaths)
        invariant forall d :: d in r ==> r[d] == m[d]
        decreases rest
      {
        var d :| d in rest;
        if |m[d].files| == 0 && |m[d].folders| == 0 {
          r := r - {d};
        }
        rest := rest - {d};
      }
    }

    method SaveFilteredZipData(data: map<string, Paths>)
      modifies this`filtered, this`dirty
      ensures View() == Do(old(View()), OpSaveFiltered(data))
    {
      var kept := DropEmpty(data);
      if |kept| > 0 {
        if filtered == Some(kept) {
          return;
        }
        filtered := Some(kept);
        dirty := true;
      } else if filtered.Some? {
        filtered := None;
        dirty := true;
      }
    }

    method AddEach(entries: seq<(string, Desc)>, kind: Kind)
      modifies this
      ensures View() == DoAll(old(View()), AddOps(entries, kind))
    {
      var ops := AddOps(entries, kind);
      for i := 0 to |entries|
        invariant DoAll(View(), ops[i..]) == DoAll(old(View()), ops)
      {
        assert ops[i..][0] == ops[i] && ops[i..][1..] == ops[i + 1..];
        if kind.Files? {
          AddFile(entries[i].0, entries[i].1);
        } else {
          AddFolder(entries[i].0, entries[i].1);
        }
      }
    }

    method AddEachExternal(entries: seq<(string, string, Desc)>, kind: Kind)
      modifies this
      ensures View() == DoAll(old(View()), AddExternalOps(entries, kind))
    {
      var ops := AddExternalOps(entries, kind);
      for i := 0 to |entries|
        invariant DoAll(View(), ops[i..]) == DoAll(old(View()), ops)
      {
        assert ops[i..][0] == ops[i] && ops[i..][1..] == ops[i + 1..];
        if kind.Files? {
          AddExternalFile(entries[i].0, entries[i].1, entries[i].2, false);
        } else {
          AddExternalEntry(Folders, entries[i].0, entries[i].1, entries[i].2);
        }
      }
    }

    method AddFragment(f: Fragment)
      modifies this
      ensures View() == DoAll(old(View()), FragmentOps(f))
    {
      DoFragment(View(), f);
      AddEach(f.files, Files);
      AddEach(f.folders, Folders);
      AddEachExternal(f.externalFiles, Files);
      AddEachExternal(f.externalFolders, Folders);
    }

    method SetZipDescription(zipId: string, zip: Zip, same: bool)
      modifies this`zips, this`dirty
      ensures View() == SetZip(old(View()), zipId, zip, same)
    {
      if !(zipId in zips && same) {
        zips := zips[zipId := zip];
        dirty := true;
      }
    }

    method AddZipSummary(zipId: string, zip: Zip, same: bool, f: Fragment)
      modifies this
      ensures View() == DoAll(SetZip(old(View()), zipId, zip, same), FragmentOps(f))
    {
      SetZipDescription(zipId, zip, same);
      AddFragment(f);
    }

    /* ---- The rest ---- */

    method SetBasePath(path: string)
      modifies this`basePath, this`dirty
      ensures View() == Do(old(View()), OpSetBasePath(path))
    {
      if basePath == Some(path) {
        return;
      }
      if basePath.Some? {
        dirty := true;
      }
      basePath := Some(path);
    }

    method SetDbStateFingerprint(hash: string, size: int, timestamp: int, filter: string)
      modifies this`figp, this`dirty
      ensures View() == Do(old(View()), OpSetFingerprint(Fingerprint(hash, size, timestamp, filter)))
    {
      if figp.hash != hash {
        figp := figp.(hash := hash);
        dirty := true;
      }
      if figp.size != size {
        figp := figp.(size := size);
        dirty := true;
      }
      if figp.timestamp != timestamp {
        figp := figp.(timestamp := timestamp);
        dirty := true;
      }
      if figp.filter != filter {
        figp := figp.(filter := filter);
        dirty := true;
      }
    }

    method AnyDriveLost(kind: Kind, p: string) returns (lost: bool)
      requires external.Some?
      ensures lost <==> LostPath(View().store, kind, addedFiles, p)
    {
      if p !in addedFiles {
        return false;
      }
      var drives := addedFiles[p];
      for i := 0 to |drives|
        invariant forall d :: d in drives[..i] ==> OnDrive(View().store, kind, d, p)
      {
        if drives[i] !in external.value || p !in external.value[drives[i]].Of(kind) {
          assert drives[i] in drives;
          return true;
        }
      }
      assert drives[..|drives|] == drives;
      lost := false;
    }

    /** Drops the base entries of the known paths, and asks for a save where a drive lost one. */
    method DropKnownEntries(kind: Kind)
      requires external.Some?
      modifies this`base, this`dirty
      ensures View() == DropKnown(old(View()), kind)
    {
      var known := if kind.Files? then addedFiles else addedFolders;
      var entries, lost := base.Of(kind), false;
      var rest := known.Keys;
      while rest != {}
        invariant View() == old(View())
        invariant rest <= known.Keys && entries == base.Of(kind) - (known.Keys - rest)
        invariant lost <==> exists p :: p in known.Keys - rest && p in base.Of(kind) && LostPath(View().store, kind, addedFiles, p)
        decreases rest
      {
        var p :| p in rest;
        if p in entries {
          entries := entries - {p};
          var away := AnyDriveLost(kind, p);
          lost := lost || away;
        }
        rest := rest - {p};
      }
      assert known.Keys - rest == known.Keys;
      assert lost <==> LostBy(View().store, kind, known, addedFiles);
      base := base.With(kind, entries);
      if lost {
        dirty := true;
      }
    }

    method CleanupExternals()
      modifies this
      ensures View() == Do(old(View()), OpCleanupExternals)
    {
      if external.None? {
        return;
      }
      var kept := DropEmpty(external.value);
      if kept != external.value {
        external := Some(kept);
        dirty := true;
      }
      DropKnownEntries(Files);
      DropKnownEntries(Folders);
      if |external.value| == 0 {
        external := None;
        dirty := true;
      }
    }
  }
}
