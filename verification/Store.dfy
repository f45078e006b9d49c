/**
 The store of one database, as the write adapter changes it (src/downloader/local_store_wrapper.py).
 A base section and one section per external drive map paths to descriptions; `additions`
 remembers which drives held a path when the store was wrapped. Paths of files and of folders go
 through the same code, so a `Kind` picks the dictionary.
 */
module Store {
  import opened Prelude

  datatype Value = Text(text: string) | Number(number: int) | Items(items: seq<Value>) | Dict(dict: map<string, Value>)
  type Desc = map<string, Value>

  datatype Kind = Files | Folders
  datatype Paths = Paths(files: map<string, Desc>, folders: map<string, Desc>) {
    function Of(kind: Kind): map<string, Desc> { if kind.Files? then files else folders }

    function With(kind: Kind, m: map<string, Desc>): Paths {
      if kind.Files? then this.(files := m) else this.(folders := m)
    }

    function Without(kind: Kind, path: string): Paths { With(kind, Of(kind) - {path}) }
  }

  const NoPaths := Paths(map[], map[])

  /** A zip description; `listed` are paths that it may still carry itself. */
  datatype Zip = Zip(desc: Desc, listed: Paths)
  datatype Fingerprint = Fingerprint(hash: string, size: int, timestamp: int, filter: string)

  const NO_HASH := "non_initialized_hash"
  const NO_SIZE := -123
  const NoFingerprint := Fingerprint(NO_HASH, NO_SIZE, 0, "")

  datatype DbStore = DbStore(
    base: Paths,
    external: Option<map<string, Paths>>,
    zips: map<string, Zip>,
    filtered: Option<map<string, Paths>>,
    basePath: Option<string>)

  datatype Additions = Additions(files: map<string, seq<string>>, folders: map<string, seq<string>>) {
    function Of(kind: Kind): map<string, seq<string>> { if kind.Files? then files else folders }

    function Without(kind: Kind, path: string): Additions {
      if kind.Files? then this.(files := files - {path}) else this.(folders := folders - {path})
    }
  }

  /** Everything a write adapter works on. */
  datatype Wrapper = Wrapper(store: DbStore, figp: Fingerprint, additions: Additions, dirty: bool)

  function Drives(s: DbStore): map<string, Paths> { if s.external.None? then map[] else s.external.value }

  predicate OnDrive(s: DbStore, kind: Kind, drive: string, path: string) {
    drive in Drives(s) && path in Drives(s)[drive].Of(kind)
  }

  /* ---- What each operation does ---- */

  function Section(s: DbStore, drive: string): Paths { if drive in Drives(s) then Drives(s)[drive] else NoPaths }

  /** What a section says of a path; no location stands for the base section. */
  function At(s: DbStore, kind: Kind, loc: Option<string>, p: string): Option<Desc> {
    Lookup((if loc.None? then s.base else Section(s, loc.value)).Of(kind), p)
  }

  function WithSection(s: DbStore, drive: string, section: Paths): DbStore {
    s.(external := Some(Drives(s)[drive := section]))
  }

  function RemoveLocal(w: Wrapper, kind: Kind, path: string): Wrapper {
    if path !in w.store.base.Of(kind) then w
    else w.(store := w.store.(base := w.store.base.Without(kind, path)), dirty := true)
  }

  function RemoveExternal(w: Wrapper, kind: Kind, drive: string, path: string): Wrapper {
    if !OnDrive(w.store, kind, drive, path) then w
    else w.(store := WithSection(w.store, drive, Section(w.store, drive).Without(kind, path)), dirty := true)
  }

  function RemoveFromDrives(w: Wrapper, drives: seq<string>, but: Option<string>, path: string): Wrapper
    decreases |drives|
  {
    if drives == [] then w
    else RemoveFromDrives(if but == Some(drives[0]) then w else RemoveExternal(w, Files, drives[0], path), drives[1..], but, path)
  }

  function Swept(m: map<string, Paths>, kind: Kind, path: string): map<string, Paths> {
    map d | d in m :: m[d].Without(kind, path)
  }

  /** Takes the path off every drive. */
  function CleanAdditions(w: Wrapper, kind: Kind, path: string): Wrapper {
    var added := w.(additions := w.additions.Without(kind, path));
    if w.store.external.None? then added
    else added.(store := w.store.(external := Some(Swept(w.store.external.value, kind, path))),
                dirty := w.dirty || exists d :: d in w.store.external.value && path in w.store.external.value[d].Of(kind))
  }

  /** Tags are kept only for entries of zips. */
  function Tidy(desc: Desc): Desc { if "zip_id" !in desc && "tags" in desc then desc - {"tags"} else desc }

  /** Files compare all fields; a stored folder may know more than the new description. */
  predicate Same(kind: Kind, stored: Desc, desc: Desc) {
    if kind.Files? then stored == desc
    else |desc| <= |stored| && forall k :: k in stored && k in desc ==> stored[k] == desc[k]
  }

  function AddEntry(w: Wrapper, kind: Kind, path: string, desc: Desc): Wrapper {
    var c := CleanAdditions(w, kind, path);
    var stored := c.store.base.Of(kind);
    if path in stored && Same(kind, stored[path], Tidy(desc)) then c
    else c.(store := c.store.(base := c.store.base.With(kind, stored[path := Tidy(desc)])), dirty := true)
  }

  function AddedOn(w: Wrapper, path: string): seq<string> {
    if path in w.additions.files then w.additions.files[path] else []
  }

  function AddFile(w: Wrapper, path: string, desc: Desc): Wrapper {
    AddEntry(RemoveFromDrives(w, AddedOn(w, path), None, path), Files, path, desc)
  }

  function AddExternalEntry(w: Wrapper, kind: Kind, drive: string, path: string, desc: Desc): Wrapper {
    var section := Section(w.store, drive);
    if path in section.Of(kind) && Same(kind, section.Of(kind)[path], Tidy(desc)) then w
    else w.(store := WithSection(w.store, drive, section.With(kind, section.Of(kind)[path := Tidy(desc)])), dirty := true)
  }

  function AddExternalFile(w: Wrapper, drive: string, path: string, desc: Desc, repeated: bool): Wrapper {
    AddExternalEntry(if repeated then w else RemoveFromDrives(RemoveLocal(w, Files, path), AddedOn(w, path), Some(drive), path),
                     Files, drive, path, desc)
  }

  function WithoutListed(zips: map<string, Zip>, kind: Kind, path: string): map<string, Zip> {
    map z | z in zips :: zips[z].(listed := zips[z].listed.Without(kind, path))
  }

  function RemoveFromZips(w: Wrapper, kind: Kind, path: string): Wrapper {
    w.(store := w.store.(zips := WithoutListed(w.store.zips, kind, path)),
       dirty := w.dirty || exists z :: z in w.store.zips && path in w.store.zips[z].listed.Of(kind))
  }

  function ForgetAddition(w: Wrapper, kind: Kind, path: string): Wrapper {
    w.(additions := w.additions.Without(kind, path))
  }

  function SetBasePath(w: Wrapper, path: string): Wrapper {
    if w.store.basePath == Some(path) then w
    else w.(store := w.store.(basePath := Some(path)), dirty := w.dirty || w.store.basePath.Some?)
  }

  function SetFingerprint(w: Wrapper, f: Fingerprint): Wrapper {
    w.(figp := f, dirty := w.dirty || w.figp != f)
  }

  function Strip(desc: Desc, ids: seq<string>): Desc {
    if "zip_id" in desc && desc["zip_id"].Text? && desc["zip_id"].text in ids then desc - {"zip_id", "tags"} else desc
  }

  function StripAll(m: map<string, Desc>, ids: seq<string>): map<string, Desc> { map p | p in m :: Strip(m[p], ids) }

  function SetOf(ids: seq<string>): set<string> { set i | i in ids }

  function RemainingFiltered(filtered: Option<map<string, Paths>>, ids: seq<string>): Option<map<string, Paths>> {
    if filtered.None? || filtered.value - SetOf(ids) == map[] then None else Some(filtered.value - SetOf(ids))
  }

  function RemoveZipIds(w: Wrapper, ids: seq<string>): Wrapper {
    if ids == [] then w
    else
      w.(store := w.store.(zips := w.store.zips - SetOf(ids), filtered := RemainingFiltered(w.store.filtered, ids),
                           base := Paths(StripAll(w.store.base.files, ids), StripAll(w.store.base.folders, ids))),
         dirty := true)
  }

  function NonEmpty(m: map<string, Paths>): map<string, Paths> { map d | d in m && m[d] != NoPaths :: m[d] }

  function SaveFiltered(w: Wrapper, data: map<string, Paths>): Wrapper {
    var kept := NonEmpty(data);
    var f := if kept == map[] then None else Some(kept);
    w.(store := w.store.(filtered := f), dirty := w.dirty || w.store.filtered != f)
  }

  /** Drops base entries that the additions know; the folders ask the drives of the files. */
  predicate LostPath(s: DbStore, kind: Kind, drives: map<string, seq<string>>, p: string) {
    p in drives && exists d :: d in drives[p] && !OnDrive(s, kind, d, p)
  }

  predicate LostBy(s: DbStore, kind: Kind, known: map<string, seq<string>>, drives: map<string, seq<string>>) {
    exists p :: p in known && p in s.base.Of(kind) && LostPath(s, kind, drives, p)
  }

  function DropKnown(w: Wrapper, kind: Kind): Wrapper {
    var known := w.additions.Of(kind);
    w.(store := w.store.(base := w.store.base.With(kind, w.store.base.Of(kind) - known.Keys)),
       dirty := w.dirty || LostBy(w.store, kind, known, w.additions.files))
  }

  function CleanupExternals(w: Wrapper): Wrapper {
    if w.store.external.None? then w
    else
      var kept := NonEmpty(w.store.external.value);
      var a := w.(store := w.store.(external := Some(kept)), dirty := w.dirty || kept != w.store.external.value);
      var b := DropKnown(DropKnown(a, Files), Folders);
      if kept == map[] then b.(store := b.store.(external := None), dirty := true) else b
  }

  /** `same` says whether the stored zip description counts as equal to the new one. */
  function SetZip(w: Wrapper, zipId: string, zip: Zip, same: bool): Wrapper {
    if zipId in w.store.zips && same then w
    else w.(store := w.store.(zips := w.store.zips[zipId := zip]), dirty := true)
  }

  /* ---- Sequences of operations ---- */

  datatype Op =
    | OpAddFile(path: string, desc: Desc)
    | OpAddFolder(path: string, desc: Desc)
    | OpAddExternalFile(drive: string, path: string, desc: Desc, repeated: bool)
    | OpAddExternalFolder(drive: string, path: string, desc: Desc)
    | OpRemoveLocal(kind: Kind, path: string)
    | OpRemoveExternal(kind: Kind, drive: string, path: string)
    | OpRemoveFileFromZips(path: string)
    | OpRemoveLocalFolderFromZips(path: string)
    | OpRemoveExternalFolderFromZips(drive: string, path: string)
    | OpSetBasePath(base: string)
    | OpSetFingerprint(figp: Fingerprint)
    | OpRemoveZipIds(ids: seq<string>)
    | OpCleanupExternals
    | OpSaveFiltered(data: map<string, Paths>)
    | OpSetZip(zipId: string, zip: Zip, same: bool)

  function Do(w: Wrapper, op: Op): Wrapper {
    match op
    case OpAddFile(path, desc) => AddFile(w, path, desc)
    case OpAddFolder(path, desc) => AddEntry(w, Folders, path, desc)
    case OpAddExternalFile(drive, path, desc, repeated) => AddExternalFile(w, drive, path, desc, repeated)
    case OpAddExternalFolder(drive, path, desc) => AddExternalEntry(w, Folders, drive, path, desc)
    case OpRemoveLocal(kind, path) => RemoveLocal(w, kind, path)
    case OpRemoveExternal(kind, drive, path) => RemoveExternal(w, kind, drive, path)
    case OpRemoveFileFromZips(path) => RemoveFromZips(CleanAdditions(w, Files, path), Files, path)
    case OpRemoveLocalFolderFromZips(path) => RemoveFromZips(w, Folders, path)
    case OpRemoveExternalFolderFromZips(drive, path) =>
      RemoveFromZips(RemoveExternal(ForgetAddition(w, Folders, path), Folders, drive, path), Folders, path)
    case OpSetBasePath(base) => SetBasePath(w, base)
    case OpSetFingerprint(figp) => SetFingerprint(w, figp)
    case OpRemoveZipIds(ids) => RemoveZipIds(w, ids)
    case OpCleanupExternals => CleanupExternals(w)
    case OpSaveFiltered(data) => SaveFiltered(w, data)
    case OpSetZip(zipId, zip, same) => SetZip(w, zipId, zip, same)
  }

  function DoAll(w: Wrapper, ops: seq<Op>): Wrapper
    decreases |ops|
  {
    if ops == [] then w else DoAll(Do(w, ops[0]), ops[1..])
  }

  lemma {:induction false} DoAppend(w: Wrapper, a: seq<Op>, b: seq<Op>)
    ensures DoAll(w, a + b) == DoAll(DoAll(w, a), b)
    decreases |a|
  {
    if a == [] {
      assert a + b == b;
    } else {
      assert (a + b)[1..] == a[1..] + b;
      DoAppend(Do(w, a[0]), a[1..], b);
    }
  }

  /* ---- The additions stay apart from the base section ---- */

  ghost predicate Apart(w: Wrapper) {
    && w.additions.files.Keys !! w.store.base.files.Keys
    && w.additions.folders.Keys !! w.store.base.folders.Keys
  }

  /** Nothing but drives changed in the sections, and every drive holds no more than before. */
  lemma {:induction false} RemoveFromDrivesFrame(w: Wrapper, drives: seq<string>, but: Option<string>, path: string)
    ensures var v := RemoveFromDrives(w, drives, but, path);
            && v == w.(store := w.store.(external := v.store.external), dirty := v.dirty)
            && (w.dirty ==> v.dirty) && (!v.dirty ==> v == w)
            && (forall d, p :: OnDrive(v.store, Files, d, p) <==>
                  OnDrive(w.store, Files, d, p) && !(p == path && d in drives && but != Some(d)))
    decreases |drives|
  {
    if drives != [] {
      RemoveFromDrivesFrame(if but == Some(drives[0]) then w else RemoveExternal(w, Files, drives[0], path), drives[1..], but, path);
    }
  }

  lemma AddEntryApart(w: Wrapper, kind: Kind, path: string, desc: Desc)
    requires Apart(w)
    ensures Apart(AddEntry(w, kind, path, desc))
  {
  }

  lemma CleanupApart(w: Wrapper)
    requires Apart(w)
    ensures Apart(CleanupExternals(w))
  {
  }

  lemma DoKeepsApart(w: Wrapper, op: Op)
    requires Apart(w)
    ensures Apart(Do(w, op))
  {
    match op
    case OpAddFile(path, desc) =>
      RemoveFromDrivesFrame(w, AddedOn(w, path), None, path);
      AddEntryApart(RemoveFromDrives(w, AddedOn(w, path), None, path), Files, path, desc);
    case OpAddFolder(path, desc) => AddEntryApart(w, Folders, path, desc);
    case OpAddExternalFile(drive, path, desc, repeated) =>
      RemoveFromDrivesFrame(RemoveLocal(w, Files, path), AddedOn(w, path), Some(drive), path);
    case OpCleanupExternals => CleanupApart(w);
    case _ =>
  }

  /* ---- A store that is not marked dirty did not change ---- */

  /** Marks are never lost, and without a mark nothing that is saved changed. */
  ghost predicate Marked(w: Wrapper, v: Wrapper) {
    && (w.dirty ==> v.dirty)
    && (!v.dirty ==> v.figp == w.figp && v.store == w.store.(basePath := v.store.basePath))
    && (!v.dirty && v.store.basePath != w.store.basePath ==> w.store.basePath.None?)
    && (w.store.basePath.Some? ==> v.store.basePath.Some?)
  }

  lemma SweptSame(m: map<string, Paths>, kind: Kind, path: string)
    requires forall d :: d in m ==> path !in m[d].Of(kind)
    ensures Swept(m, kind, path) == m
  {
    forall d | d in m
      ensures m[d].Without(kind, path) == m[d]
    {
      assert m[d].Of(kind) - {path} == m[d].Of(kind);
    }
  }

  lemma CleanMarks(w: Wrapper, kind: Kind, path: string)
    ensures Marked(w, CleanAdditions(w, kind, path))
  {
    if w.store.external.Some? {
      var m := w.store.external.value;
      if forall d :: d in m ==> path !in m[d].Of(kind) {
        SweptSame(m, kind, path);
      }
    }
  }

  lemma ZipsMark(w: Wrapper, kind: Kind, path: string)
    ensures Marked(w, RemoveFromZips(w, kind, path))
  {
    var zips := w.store.zips;
    if forall z :: z in zips ==> path !in zips[z].listed.Of(kind) {
      forall z | z in zips
        ensures zips[z].listed.Without(kind, path) == zips[z].listed
      {
        assert zips[z].listed.Of(kind) - {path} == zips[z].listed.Of(kind);
      }
      assert WithoutListed(zips, kind, path) == zips;
    }
  }

  lemma CleanupMarks(w: Wrapper)
    requires Apart(w)
    ensures Marked(w, CleanupExternals(w))
  {
  }

  lemma DoMarks(w: Wrapper, op: Op)
    requires Apart(w)
    ensures Marked(w, Do(w, op))
  {
    match op
    case OpAddFile(path, desc) =>
      RemoveFromDrivesFrame(w, AddedOn(w, path), None, path);
      CleanMarks(RemoveFromDrives(w, AddedOn(w, path), None, path), Files, path);
    case OpAddFolder(path, desc) => CleanMarks(w, Folders, path);
    case OpAddExternalFile(drive, path, desc, repeated) =>
      RemoveFromDrivesFrame(RemoveLocal(w, Files, path), AddedOn(w, path), Some(drive), path);
    case OpRemoveFileFromZips(path) =>
      CleanMarks(w, Files, path);
      ZipsMark(CleanAdditions(w, Files, path), Files, path);
    case OpRemoveLocalFolderFromZips(path) => ZipsMark(w, Folders, path);
    case OpRemoveExternalFolderFromZips(drive, path) =>
      ZipsMark(RemoveExternal(ForgetAddition(w, Folders, path), Folders, drive, path), Folders, path);
    case OpCleanupExternals => CleanupMarks(w);
    case _ =>
  }

  /**
   Over any sequence of writes: when nothing asks for a save, the sections, the zips, the
   filtered data and the fingerprint are what they were; only a base path may have been set
   where there was none.
   */
  lemma {:induction false} CleanMeansUnchanged(w: Wrapper, ops: seq<Op>)
    requires Apart(w)
    ensures Apart(DoAll(w, ops)) && Marked(w, DoAll(w, ops))
    decreases |ops|
  {
    if ops != [] {
      DoKeepsApart(w, ops[0]);
      DoMarks(w, ops[0]);
      CleanMeansUnchanged(Do(w, ops[0]), ops[1..]);
    }
  }

  /** Without the additions being apart, a clean-up can lose a base entry and ask for no save. */
  lemma CleanupNeedsApart()
    ensures exists w: Wrapper :: !w.dirty && !CleanupExternals(w).dirty && CleanupExternals(w).store != w.store
  {
    var section := Paths(map["a" := map[]], map[]);
    var w := Wrapper(DbStore(section, Some(map["usb0" := section]), map[], None, None), NoFingerprint,
                     Additions(map["a" := ["usb0"]], map[]), false);
    assert "a" in section.files && section != NoPaths;
    var v := CleanupExternals(w);
    assert NonEmpty(map["usb0" := section]) == map["usb0" := section];
    assert "usb0" in NonEmpty(map["usb0" := section]);
    assert OnDrive(w.store, Files, "usb0", "a");
    assert v.store.base.files == map[];
  }

  /* ---- Each file in one section ---- */

  /** The file is in the base section or on one drive, not in two places. */
  ghost predicate Single(s: DbStore) {
    && (forall p, d :: p in s.base.files ==> !OnDrive(s, Files, d, p))
    && (forall p, d, e :: OnDrive(s, Files, d, p) && OnDrive(s, Files, e, p) ==> d == e)
  }

  /** The drive was noted for the file when the store was wrapped, or is the one it was put on since. */
  predicate Noted(w: Wrapper, put: map<string, string>, drive: string, path: string) {
    drive in AddedOn(w, path) || (path in put && put[path] == drive)
  }

  ghost predicate Located(w: Wrapper, put: map<string, string>) {
    Single(w.store) && forall d, p :: OnDrive(w.store, Files, d, p) ==> Noted(w, put, d, p)
  }

  /** On which drive each file was put since the store was wrapped, unless it went to the base section again. */
  function PutSince(put: map<string, string>, op: Op): map<string, string> {
    match op
    case OpAddFile(path, _) => put - {path}
    case OpAddExternalFile(drive, path, _, _) => put[path := drive]
    case _ => put
  }

  /** Where the files are after one was added on a drive. */
  lemma AddExternalPlaces(w: Wrapper, drive: string, path: string, desc: Desc, repeated: bool)
    ensures var v := AddExternalFile(w, drive, path, desc, repeated);
            && v.additions == w.additions
            && v.store.base.files == (if repeated then w.store.base.files else w.store.base.files - {path})
            && (forall d, p :: p != path ==> (OnDrive(v.store, Files, d, p) <==> OnDrive(w.store, Files, d, p)))
            && (forall d :: OnDrive(v.store, Files, d, path) <==>
                  d == drive || (OnDrive(w.store, Files, d, path) && (repeated || d !in AddedOn(w, path))))
  {
    var r := RemoveLocal(w, Files, path);
    assert r.store.base.files == w.store.base.files - {path};
    RemoveFromDrivesFrame(r, AddedOn(w, path), Some(drive), path);
    var u := if repeated then w else RemoveFromDrives(r, AddedOn(w, path), Some(drive), path);
    AddExternalEntryPlaces(u, drive, path, desc);
  }

  lemma AddExternalEntryPlaces(u: Wrapper, drive: string, path: string, desc: Desc)
    ensures var v := AddExternalEntry(u, Files, drive, path, desc);
            && v.additions == u.additions && v.store.base == u.store.base
            && (forall d, p :: OnDrive(v.store, Files, d, p) <==> OnDrive(u.store, Files, d, p) || (d == drive && p == path))
  {
  }

  /**
   Exactly when adding a file on a drive leaves every file in one place: it was not told that
   copies may stay, or there are none, and no other drive holds it unnoted.
   */
  lemma AddExternalIsSingle(w: Wrapper, drive: string, path: string, desc: Desc, repeated: bool)
    requires Single(w.store)
    ensures Single(AddExternalFile(w, drive, path, desc, repeated).store) <==>
              && (repeated ==> path !in w.store.base.files)
              && (forall d :: OnDrive(w.store, Files, d, path) && d != drive ==> !repeated && d in AddedOn(w, path))
  {
    AddExternalPlaces(w, drive, path, desc, repeated);
    var v := AddExternalFile(w, drive, path, desc, repeated);
    assert OnDrive(v.store, Files, drive, path);
    if Single(v.store) {
      forall d | OnDrive(w.store, Files, d, path) && d != drive
        ensures !repeated && d in AddedOn(w, path)
      {
        assert !OnDrive(v.store, Files, d, path);
      }
    }
  }

  lemma AddFileLocates(w: Wrapper, path: string, desc: Desc, put: map<string, string>)
    requires Located(w, put)
    ensures Located(AddFile(w, path, desc), put - {path})
  {
    RemoveFromDrivesFrame(w, AddedOn(w, path), None, path);
    var v := AddFile(w, path, desc);
    forall d, p
      ensures OnDrive(v.store, Files, d, p) ==> OnDrive(w.store, Files, d, p) && p != path
    {
    }
    forall d, p | OnDrive(v.store, Files, d, p)
      ensures Noted(v, put - {path}, d, p)
    {
      assert Noted(w, put, d, p);
    }
  }

  lemma AddExternalLocates(w: Wrapper, drive: string, path: string, desc: Desc, put: map<string, string>)
    requires Located(w, put) && (path in put ==> put[path] == drive)
    ensures Located(AddExternalFile(w, drive, path, desc, false), put[path := drive])
  {
    AddExternalIsSingle(w, drive, path, desc, false);
    AddExternalPlaces(w, drive, path, desc, false);
    var v := AddExternalFile(w, drive, path, desc, false);
    forall d, p | OnDrive(v.store, Files, d, p)
      ensures Noted(v, put[path := drive], d, p)
    {
      assert OnDrive(w.store, Files, d, p) ==> Noted(w, put, d, p);
    }
  }

  /** An operation after which no drive holds more files, the base no more files, and notes are kept. */
  ghost predicate Shrinks(w: Wrapper, v: Wrapper) {
    && v.store.base.files.Keys <= w.store.base.files.Keys
    && (forall d, p :: OnDrive(v.store, Files, d, p) ==> OnDrive(w.store, Files, d, p) && AddedOn(v, p) == AddedOn(w, p))
  }

  lemma ShrinkLocates(w: Wrapper, v: Wrapper, put: map<string, string>)
    requires Located(w, put) && Shrinks(w, v)
    ensures Located(v, put)
  {
    forall d, p | OnDrive(v.store, Files, d, p) ensures Noted(v, put, d, p) { assert Noted(w, put, d, p); }
  }

  /** No other operation adds a file anywhere. */
  lemma OtherOpsShrink(w: Wrapper, op: Op)
    requires !op.OpAddFile? && !op.OpAddExternalFile?
    ensures Shrinks(w, Do(w, op))
  {
  }

  /** The operation puts no file on another drive than before, and none as a repeated presence. */
  predicate OneDrive(op: Op, put: map<string, string>) {
    op.OpAddExternalFile? ==> !op.repeated && (op.path in put ==> put[op.path] == op.drive)
  }

  lemma DoLocates(w: Wrapper, op: Op, put: map<string, string>)
    requires Located(w, put) && OneDrive(op, put)
    ensures Located(Do(w, op), PutSince(put, op))
  {
    if op.OpAddFile? {
      AddFileLocates(w, op.path, op.desc, put);
    } else if op.OpAddExternalFile? {
      AddExternalLocates(w, op.drive, op.path, op.desc, put);
    } else {
      OtherOpsShrink(w, op);
      ShrinkLocates(w, Do(w, op), put);
    }
  }

  /** No file is put on two different drives, and none as a repeated presence. */
  ghost predicate OneDriveEach(ops: seq<Op>, put: map<string, string>)
    decreases |ops|
  {
    ops == [] || (OneDrive(ops[0], put) && OneDriveEach(ops[1..], PutSince(put, ops[0])))
  }

  function PutAfter(ops: seq<Op>, put: map<string, string>): map<string, string>
    decreases |ops|
  {
    if ops == [] then put else PutAfter(ops[1..], PutSince(put, ops[0]))
  }

  lemma {:induction false} DoAllLocates(w: Wrapper, ops: seq<Op>, put: map<string, string>)
    requires Located(w, put) && OneDriveEach(ops, put)
    ensures Located(DoAll(w, ops), PutAfter(ops, put))
    decreases |ops|
  {
    if ops != [] {
      DoLocates(w, ops[0], put);
      DoAllLocates(Do(w, ops[0]), ops[1..], PutSince(put, ops[0]));
    }
  }

  /** All puts of one file name one drive. */
  ghost predicate PutsAgree(ops: seq<Op>) {
    forall i, j :: 0 <= i < j < |ops| && ops[i].OpAddExternalFile? && ops[j].OpAddExternalFile? && ops[i].path == ops[j].path ==>
      ops[i].drive == ops[j].drive
  }

  ghost predicate NoneRepeated(ops: seq<Op>) { forall i :: 0 <= i < |ops| && ops[i].OpAddExternalFile? ==> !ops[i].repeated }

  lemma {:induction false} AgreeingPuts(ops: seq<Op>, put: map<string, string>)
    requires PutsAgree(ops) && NoneRepeated(ops)
    requires forall i :: 0 <= i < |ops| && ops[i].OpAddExternalFile? && ops[i].path in put ==> put[ops[i].path] == ops[i].drive
    ensures OneDriveEach(ops, put)
    decreases |ops|
  {
    if ops != [] {
      var later := PutSince(put, ops[0]);
      forall i | 0 <= i < |ops[1..]| && ops[1..][i].OpAddExternalFile? && ops[1..][i].path in later
        ensures later[ops[1..][i].path] == ops[1..][i].drive
      {
        assert ops[1..][i] == ops[i + 1];
      }
      AgreeingPuts(ops[1..], later);
    }
  }

  /* ---- What the writes leave in the store ---- */

  /** Adding a file puts exactly it in the base section, takes it off every drive, and touches nothing else. */
  lemma AddFileStores(w: Wrapper, path: string, desc: Desc)
    ensures var v := AddFile(w, path, desc);
            && v.store.base == w.store.base.(files := w.store.base.files[path := Tidy(desc)])
            && (forall d :: !OnDrive(v.store, Files, d, path))
            && (forall d, p :: p != path ==> (OnDrive(v.store, Files, d, p) <==> OnDrive(w.store, Files, d, p)))
            && (forall d, p :: OnDrive(v.store, Files, d, p) ==> Drives(v.store)[d].files[p] == Drives(w.store)[d].files[p])
  {
    var u := RemoveFromDrives(w, AddedOn(w, path), None, path);
    RemoveKeepsEntries(w, AddedOn(w, path), None, path);
    RemoveFromDrivesFrame(w, AddedOn(w, path), None, path);
    AddFileEntryStores(u, path, desc);
  }

  lemma AddFileEntryStores(u: Wrapper, path: string, desc: Desc)
    ensures var v := AddEntry(u, Files, path, desc);
            && v.store.base == u.store.base.(files := u.store.base.files[path := Tidy(desc)])
            && Drives(v.store) == Swept(Drives(u.store), Files, path)
  {
    var c := CleanAdditions(u, Files, path);
    assert c.store.base == u.store.base;
    assert Drives(c.store) == Swept(Drives(u.store), Files, path);
    var files := u.store.base.files;
    if path in files && files[path] == Tidy(desc) {
      assert files[path := Tidy(desc)] == files;
    } else {
      assert AddEntry(u, Files, path, desc).store.base == u.store.base.(files := files[path := Tidy(desc)]);
    }
  }

  /** A removal from drives leaves the other entries as they are. */
  lemma {:induction false} RemoveKeepsEntries(w: Wrapper, drives: seq<string>, but: Option<string>, path: string)
    ensures var v := RemoveFromDrives(w, drives, but, path);
            forall d, p :: OnDrive(v.store, Files, d, p) ==>
              OnDrive(w.store, Files, d, p) && Drives(v.store)[d].files[p] == Drives(w.store)[d].files[p]
    decreases |drives|
  {
    if drives != [] {
      RemoveKeepsEntries(if but == Some(drives[0]) then w else RemoveExternal(w, Files, drives[0], path), drives[1..], but, path);
    }
  }

  /** A folder is merged: what is stored has at least the new fields, and agrees with the new description on shared ones. */
  lemma AddFolderStores(w: Wrapper, path: string, desc: Desc)
    ensures var v := AddEntry(w, Folders, path, desc);
            && path in v.store.base.folders && v.store.base.files == w.store.base.files
            && (v.store.base.folders[path] == Tidy(desc)
                || (path in w.store.base.folders && v.store.base.folders[path] == w.store.base.folders[path]
                    && Same(Folders, v.store.base.folders[path], Tidy(desc))))
            && (forall p :: p != path && p in w.store.base.folders ==>
                  p in v.store.base.folders && v.store.base.folders[p] == w.store.base.folders[p])
            && (forall d :: !OnDrive(v.store, Folders, d, path))
  {
  }

  /** The drive has exactly the new description. */
  lemma AddExternalStores(w: Wrapper, drive: string, path: string, desc: Desc, repeated: bool)
    ensures var v := AddExternalFile(w, drive, path, desc, repeated);
            OnDrive(v.store, Files, drive, path) && Drives(v.store)[drive].files[path] == Tidy(desc)
  {
  }

  /** A removed zip leaves no trace: no entry of the base section refers to it, all others are unchanged, and so are all other zips. */
  lemma RemovedZipsAreForgotten(w: Wrapper, ids: seq<string>, kind: Kind, p: string)
    requires p in w.store.base.Of(kind)
    ensures var v, desc := RemoveZipIds(w, ids), w.store.base.Of(kind)[p];
            && (forall i :: i in ids ==> i !in v.store.zips && (v.store.filtered.Some? ==> i !in v.store.filtered.value))
            && (forall z :: z in w.store.zips && z !in ids ==> z in v.store.zips && v.store.zips[z] == w.store.zips[z])
            && (forall z :: z !in ids ==> Lookup(FilteredData(v.store), z) == Lookup(FilteredData(w.store), z))
            && v.store.external == w.store.external && v.figp == w.figp
            && p in v.store.base.Of(kind)
            && (forall i :: i in ids && "zip_id" in desc && desc["zip_id"] == Text(i) ==>
                  "zip_id" !in v.store.base.Of(kind)[p] && "tags" !in v.store.base.Of(kind)[p])
            && ("zip_id" !in desc || !desc["zip_id"].Text? || desc["zip_id"].text !in ids ==> v.store.base.Of(kind)[p] == desc)
  {
  }

  function FilteredData(s: DbStore): map<string, Paths> { if s.filtered.None? then map[] else s.filtered.value }

  /** The filtered data that is saved is the data given, zip by zip. */
  lemma FilteredDataIsSaved(w: Wrapper, data: map<string, Paths>, z: string)
    ensures var v, given := SaveFiltered(w, data).store.filtered, if z in data then data[z] else NoPaths;
            (if v.Some? && z in v.value then v.value[z] else NoPaths) == given
  {
    if z in data && data[z] != NoPaths {
      assert z in NonEmpty(data);
    }
  }

  /* ---- Wrapping a store ---- */

  /** The drives that hold the path, for every path outside the base section. */
  ghost predicate Notes(s: DbStore, kind: Kind, known: map<string, seq<string>>) {
    && (forall p :: p in known <==> p !in s.base.Of(kind) && exists d :: OnDrive(s, kind, d, p))
    && (forall p, d :: p in known ==> (d in known[p] <==> OnDrive(s, kind, d, p)))
  }

  ghost predicate Wraps(s: DbStore, f: Fingerprint, w: Wrapper) {
    w.store == s && w.figp == f && !w.dirty && Notes(s, Files, w.additions.files) && Notes(s, Folders, w.additions.folders)
  }

  lemma WrappedIsLocated(s: DbStore, f: Fingerprint, w: Wrapper)
    requires Single(s) && Wraps(s, f, w)
    ensures Located(w, map[])
  {
  }

  /**
   Single location: starting from a store where each file is in at most one section, any writes
   that put no file on two different drives, and none as a repeated presence, end in one. Putting
   a file again on its drive is fine.
   */
  lemma EachFileInOnePlace(s: DbStore, f: Fingerprint, w: Wrapper, ops: seq<Op>)
    requires Single(s) && Wraps(s, f, w) && OneDriveEach(ops, map[])
    ensures Single(DoAll(w, ops).store) && Apart(DoAll(w, ops))
  {
    WrappedIsLocated(s, f, w);
    DoAllLocates(w, ops, map[]);
    CleanMeansUnchanged(w, ops);
  }

  /** Putting one file on two drives leaves it on both: the second call does not know of the first. */
  lemma TwicePutIsTwoPlaces(w: Wrapper, path: string, desc: Desc, d: string, e: string)
    requires Single(w.store) && d != e && AddedOn(w, path) == []
    ensures var v := DoAll(w, [OpAddExternalFile(d, path, desc, false), OpAddExternalFile(e, path, desc, false)]);
            OnDrive(v.store, Files, d, path) && OnDrive(v.store, Files, e, path)
  {
    var u := AddExternalFile(w, d, path, desc, false);
    AddExternalPlaces(w, d, path, desc, false);
    AddExternalPlaces(u, e, path, desc, false);
    var ops := [OpAddExternalFile(d, path, desc, false), OpAddExternalFile(e, path, desc, false)];
    assert ops[1..] == [ops[1]] && ops[1..][1..] == [];
    assert DoAll(u, ops[1..]) == Do(u, ops[1]);
  }
}
