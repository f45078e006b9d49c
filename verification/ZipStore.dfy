/**
 Storing the zips of a database and reading them back: the writes at the end of an update
 (src/downloader/online_importer.py, local_store_wrapper.py), seen one path at a time, and what
 regrouping by zip makes of the result in the next update.
 */
module ZipStore {
  import opened Prelude
  import opened Store
  import opened FileFilter
  import opened ZipIndex
  import SW = StoreWrapper

  /* ---- One path at a time ---- */

  /** What the section keeps when it is given a description. */
  function Merged(kind: Kind, stored: Option<Desc>, desc: Desc): Option<Desc> {
    if stored.Some? && Same(kind, stored.value, desc) then stored else Some(desc)
  }

  /** The additions that a zip summary is made of. */
  predicate IsWrite(op: Op) {
    op.OpAddFile? || op.OpAddFolder? || (op.OpAddExternalFile? && !op.repeated) || op.OpAddExternalFolder? || op.OpSetZip?
  }

  predicate Touches(op: Op, kind: Kind, p: string) {
    match op
    case OpAddFile(q, _) => kind.Files? && q == p
    case OpAddExternalFile(_, q, _, _) => kind.Files? && q == p
    case OpAddFolder(q, _) => kind.Folders? && q == p
    case OpAddExternalFolder(_, q, _) => kind.Folders? && q == p
    case _ => false
  }

  function SlotAfter(w: Wrapper, op: Op, kind: Kind, loc: Option<string>, p: string): Option<Desc> {
    var was := At(w.store, kind, loc, p);
    if !Touches(op, kind, p) then was
    else
      match op
      case OpAddFile(_, desc) => if loc.None? then Some(Tidy(desc)) else None
      case OpAddFolder(_, desc) => if loc.None? then Merged(kind, was, Tidy(desc)) else None
      case OpAddExternalFile(drive, _, desc, _) =>
        if loc == Some(drive) then Some(Tidy(desc)) else if loc.None? || loc.value in AddedOn(w, p) then None else was
      case OpAddExternalFolder(drive, _, desc) => if loc == Some(drive) then Merged(kind, was, Tidy(desc)) else was
      case _ => was
  }

  lemma {:induction false} RemoveFromDrivesAt(w: Wrapper, drives: seq<string>, but: Option<string>, path: string,
                                              kind: Kind, loc: Option<string>, p: string)
    ensures var v := RemoveFromDrives(w, drives, but, path);
            && v.additions == w.additions
            && At(v.store, kind, loc, p) ==
                 if kind.Files? && p == path && loc.Some? && loc.value in drives && but != loc then None else At(w.store, kind, loc, p)
    decreases |drives|
  {
    if drives != [] {
      var u := if but == Some(drives[0]) then w else RemoveExternal(w, Files, drives[0], path);
      RemoveFromDrivesAt(u, drives[1..], but, path, kind, loc, p);
      assert drives == [drives[0]] + drives[1..];
    }
  }

  lemma AddEntryAt(w: Wrapper, entry: Kind, path: string, desc: Desc, kind: Kind, loc: Option<string>, p: string)
    ensures At(AddEntry(w, entry, path, desc).store, kind, loc, p) ==
            if kind != entry || p != path then At(w.store, kind, loc, p)
            else if loc.None? then Merged(kind, At(w.store, kind, loc, p), Tidy(desc)) else None
  {
    var c := CleanAdditions(w, entry, path);
    assert At(c.store, kind, loc, p) == if kind == entry && p == path && loc.Some? then None else At(w.store, kind, loc, p);
  }

  lemma AddExternalEntryAt(w: Wrapper, entry: Kind, drive: string, path: string, desc: Desc, kind: Kind, loc: Option<string>, p: string)
    ensures At(AddExternalEntry(w, entry, drive, path, desc).store, kind, loc, p) ==
            if kind == entry && p == path && loc == Some(drive) then Merged(kind, At(w.store, kind, loc, p), Tidy(desc))
            else At(w.store, kind, loc, p)
  {
  }

  lemma AddExternalFileAt(w: Wrapper, drive: string, path: string, desc: Desc, kind: Kind, loc: Option<string>, p: string)
    ensures At(AddExternalFile(w, drive, path, desc, false).store, kind, loc, p) ==
            SlotAfter(w, OpAddExternalFile(drive, path, desc, false), kind, loc, p)
  {
    var r := RemoveLocal(w, Files, path);
    assert At(r.store, kind, loc, p) == if kind.Files? && p == path && loc.None? then None else At(w.store, kind, loc, p);
    var u := RemoveFromDrives(r, AddedOn(w, path), Some(drive), path);
    RemoveFromDrivesAt(r, AddedOn(w, path), Some(drive), path, kind, loc, p);
    AddExternalEntryAt(u, Files, drive, path, desc, kind, loc, p);
  }

  /** Each addition changes the sections at its own path, and there as specified. */
  lemma OpSlots(w: Wrapper, op: Op, kind: Kind, loc: Option<string>, p: string)
    requires IsWrite(op)
    ensures At(Do(w, op).store, kind, loc, p) == SlotAfter(w, op, kind, loc, p)
  {
    match op
    case OpAddFile(path, desc) =>
      var u := RemoveFromDrives(w, AddedOn(w, path), None, path);
      RemoveFromDrivesAt(w, AddedOn(w, path), None, path, kind, loc, p);
      AddEntryAt(u, Files, path, desc, kind, loc, p);
    case OpAddFolder(path, desc) => AddEntryAt(w, Folders, path, desc, kind, loc, p);
    case OpAddExternalFile(drive, path, desc, _) => AddExternalFileAt(w, drive, path, desc, kind, loc, p);
    case OpAddExternalFolder(drive, path, desc) => AddExternalEntryAt(w, Folders, drive, path, desc, kind, loc, p);
    case OpSetZip(_, _, _) =>
  }

  /** No addition notes a drive, and only a file added to the base section loses its note. */
  lemma OpNotes(w: Wrapper, op: Op, p: string)
    requires IsWrite(op)
    ensures AddedOn(Do(w, op), p) == if op.OpAddFile? && op.path == p then [] else AddedOn(w, p)
  {
    match op
    case OpAddFile(path, desc) => RemoveFromDrivesAt(w, AddedOn(w, path), None, path, Files, None, p);
    case OpAddExternalFile(drive, path, desc, _) =>
      RemoveFromDrivesAt(RemoveLocal(w, Files, path), AddedOn(w, path), Some(drive), path, Files, None, p);
    case _ =>
  }

  /* ---- Adding a description at a place ---- */

  function PutOp(kind: Kind, place: Option<string>, p: string, desc: Desc): Op {
    if kind.Files? then (if place.None? then OpAddFile(p, desc) else OpAddExternalFile(place.value, p, desc, false))
    else (if place.None? then OpAddFolder(p, desc) else OpAddExternalFolder(place.value, p, desc))
  }

  /** A file that goes to a drive is on no other drive, except ones that were noted. */
  ghost predicate Ready(w: Wrapper, kind: Kind, place: Option<string>, p: string) {
    kind.Files? && place.Some? ==> forall d :: OnDrive(w.store, Files, d, p) ==> d in AddedOn(w, p) || d == place.value
  }

  /** Putting an entry again changes nothing. */
  lemma PutTwice(w: Wrapper, kind: Kind, place: Option<string>, p: string, desc: Desc, loc: Option<string>)
    ensures var put := PutOp(kind, place, p, desc);
            SlotAfter(Do(w, put), put, kind, loc, p) == SlotAfter(w, put, kind, loc, p)
  {
    var put := PutOp(kind, place, p, desc);
    OpSlots(w, put, kind, loc, p);
    OpNotes(w, put, p);
  }

  /** A put depends on what the place has and on the notes of the path only. */
  lemma SlotDependsOn(v: Wrapper, w: Wrapper, op: Op, kind: Kind, loc: Option<string>, p: string)
    requires At(v.store, kind, loc, p) == At(w.store, kind, loc, p) && (kind.Files? ==> AddedOn(v, p) == AddedOn(w, p))
    ensures SlotAfter(v, op, kind, loc, p) == SlotAfter(w, op, kind, loc, p)
  {
  }

  /** Over any additions of which those at this path are all the same one. */
  lemma {:induction false} SeqSlots(w: Wrapper, ops: seq<Op>, kind: Kind, place: Option<string>, p: string, desc: Desc, loc: Option<string>)
    requires var put := PutOp(kind, place, p, desc);
             forall op :: op in ops ==> IsWrite(op) && (Touches(op, kind, p) ==> op == put)
    ensures var put := PutOp(kind, place, p, desc);
            At(DoAll(w, ops).store, kind, loc, p) == if put in ops then SlotAfter(w, put, kind, loc, p) else At(w.store, kind, loc, p)
    decreases |ops|
  {
    if ops != [] {
      var op, put := ops[0], PutOp(kind, place, p, desc);
      assert op in ops && ops == [op] + ops[1..];
      OpSlots(w, op, kind, loc, p);
      OpNotes(w, op, p);
      SeqSlots(Do(w, op), ops[1..], kind, place, p, desc, loc);
      if op == put {
        PutTwice(w, kind, place, p, desc, loc);
      } else {
        SlotDependsOn(Do(w, op), w, put, kind, loc, p);
      }
    }
  }

  lemma {:induction false} SeqNotes(w: Wrapper, ops: seq<Op>, p: string)
    requires forall op :: op in ops ==> IsWrite(op)
    ensures AddedOn(DoAll(w, ops), p) == if exists op :: op in ops && op.OpAddFile? && op.path == p then [] else AddedOn(w, p)
    decreases |ops|
  {
    if ops != [] {
      var op := ops[0];
      assert op in ops && ops == [op] + ops[1..];
      OpNotes(w, op, p);
      SeqNotes(Do(w, op), ops[1..], p);
    }
  }

  /* ---- The writes of a database's zips ---- */

  /** A zip as it is stored: its filtered index goes to the base section or to one drive as a whole. */
  datatype ZipWrite = ZipWrite(id: string, zip: Zip, same: bool, place: Option<string>, kept: Paths, fragment: SW.Fragment)

  ghost predicate Enumerates(entries: seq<(string, Desc)>, m: map<string, Desc>) {
    && (forall e :: e in entries ==> e.0 in m && e.1 == m[e.0])
    && (forall p :: p in m ==> (p, m[p]) in entries)
  }

  ghost predicate EnumeratesOn(entries: seq<(string, string, Desc)>, drive: string, m: map<string, Desc>) {
    && (forall e :: e in entries ==> e.0 == drive && e.1 in m && e.2 == m[e.1])
    && (forall p :: p in m ==> (drive, p, m[p]) in entries)
  }

  ghost predicate Fills(f: SW.Fragment, place: Option<string>, kept: Paths) {
    if place.None? then
      Enumerates(f.files, kept.files) && Enumerates(f.folders, kept.folders) && f.externalFiles == [] && f.externalFolders == []
    else
      && EnumeratesOn(f.externalFiles, place.value, kept.files) && EnumeratesOn(f.externalFolders, place.value, kept.folders)
      && f.files == [] && f.folders == []
  }

  method Enumerate(m: map<string, Desc>) returns (entries: seq<(string, Desc)>)
    ensures Enumerates(entries, m)
  {
    entries := [];
    var rest := m.Keys;
    while rest != {}
      invariant rest <= m.Keys
      invariant forall e :: e in entries ==> e.0 in m && e.1 == m[e.0]
      invariant forall p :: p in m.Keys - rest ==> (p, m[p]) in entries
      decreases rest
    {
      var p :| p in rest;
      entries := entries + [(p, m[p])];
      rest := rest - {p};
    }
  }

  method EnumerateOn(drive: string, m: map<string, Desc>) returns (entries: seq<(string, string, Desc)>)
    ensures EnumeratesOn(entries, drive, m)
  {
    entries := [];
    var rest := m.Keys;
    while rest != {}
      invariant rest <= m.Keys
      invariant forall e :: e in entries ==> e.0 == drive && e.1 in m && e.2 == m[e.1]
      invariant forall p :: p in m.Keys - rest ==> (drive, p, m[p]) in entries
      decreases rest
    {
      var p :| p in rest;
      entries := entries + [(drive, p, m[p])];
      rest := rest - {p};
    }
  }

  /** The drive or the base section gets all files and folders of the zip. */
  method FillFragment(place: Option<string>, kept: Paths) returns (f: SW.Fragment)
    ensures Fills(f, place, kept)
  {
    if place.None? {
      var files := Enumerate(kept.files);
      var folders := Enumerate(kept.folders);
      f := SW.Fragment(files, folders, [], []);
    } else {
      var files := EnumerateOn(place.value, kept.files);
      var folders := EnumerateOn(place.value, kept.folders);
      f := SW.Fragment([], [], files, folders);
    }
  }

  function ZipOps(x: ZipWrite): seq<Op> { [OpSetZip(x.id, x.zip, x.same)] + SW.FragmentOps(x.fragment) }

  function AllZipOps(zips: seq<ZipWrite>): seq<Op> {
    if zips == [] then [] else ZipOps(zips[0]) + AllZipOps(zips[1..])
  }

  /** The zips one after the other, then the filtered data, then the clean-up. */
  function Writes(zips: seq<ZipWrite>, data: map<string, Paths>): seq<Op> {
    AllZipOps(zips) + [OpSaveFiltered(data), OpCleanupExternals]
  }

  ghost predicate CarriesId(id: string, paths: Paths) {
    forall kind: Kind, p :: p in paths.Of(kind) ==> ZipIdOf(paths.Of(kind)[p]) == Some(id)
  }

  ghost predicate Good(x: ZipWrite) { Fills(x.fragment, x.place, x.kept) && CarriesId(x.id, x.kept) }

  ghost predicate Overlap(x: ZipWrite, y: ZipWrite) {
    x.id == y.id || exists kind: Kind, p :: p in x.kept.Of(kind) && p in y.kept.Of(kind)
  }

  /** Different zips have different ids and no path in common. */
  ghost predicate Disjoint(zips: seq<ZipWrite>) {
    forall i, j :: 0 <= i < |zips| && 0 <= j < |zips| && Overlap(zips[i], zips[j]) ==> i == j
  }

  ghost predicate DistinctIds(zips: seq<ZipWrite>) { forall i, j :: 0 <= i < j < |zips| ==> zips[i].id != zips[j].id }

  ghost predicate AllGood(zips: seq<ZipWrite>) { forall i :: 0 <= i < |zips| ==> Good(zips[i]) }

  /* ---- Which operations these are ---- */

  lemma InAddOps(entries: seq<(string, Desc)>, m: map<string, Desc>, kind: Kind, op: Op)
    requires Enumerates(entries, m)
    ensures op in SW.AddOps(entries, kind) <==> exists p :: p in m && op == PutOp(kind, None, p, m[p])
  {
    var ops := SW.AddOps(entries, kind);
    if op in ops {
      var i :| 0 <= i < |ops| && ops[i] == op;
      assert entries[i] in entries;
    }
    if p :| p in m && op == PutOp(kind, None, p, m[p]) {
      var i :| 0 <= i < |entries| && entries[i] == (p, m[p]);
      assert ops[i] == op;
    }
  }

  lemma InAddExternalOps(entries: seq<(string, string, Desc)>, drive: string, m: map<string, Desc>, kind: Kind, op: Op)
    requires EnumeratesOn(entries, drive, m)
    ensures op in SW.AddExternalOps(entries, kind) <==> exists p :: p in m && op == PutOp(kind, Some(drive), p, m[p])
  {
    var ops := SW.AddExternalOps(entries, kind);
    if op in ops {
      var i :| 0 <= i < |ops| && ops[i] == op;
      assert entries[i] in entries;
    }
    if p :| p in m && op == PutOp(kind, Some(drive), p, m[p]) {
      var i :| 0 <= i < |entries| && entries[i] == (drive, p, m[p]);
      assert ops[i] == op;
    }
  }

  ghost predicate Puts(x: ZipWrite, op: Op) {
    exists kind: Kind, p :: p in x.kept.Of(kind) && op == PutOp(kind, x.place, p, x.kept.Of(kind)[p])
  }

  /** A zip is stored by setting its description and putting each of its entries at its place. */
  lemma InZipOps(x: ZipWrite, op: Op)
    requires Good(x)
    ensures op in ZipOps(x) <==> op == OpSetZip(x.id, x.zip, x.same) || Puts(x, op)
  {
    var f := x.fragment;
    if x.place.None? {
      InAddOps(f.files, x.kept.files, Files, op);
      InAddOps(f.folders, x.kept.folders, Folders, op);
    } else {
      InAddExternalOps(f.externalFiles, x.place.value, x.kept.files, Files, op);
      InAddExternalOps(f.externalFolders, x.place.value, x.kept.folders, Folders, op);
    }
    assert op in SW.FragmentOps(f) <==>
      || op in SW.AddOps(f.files, Files) || op in SW.AddOps(f.folders, Folders)
      || op in SW.AddExternalOps(f.externalFiles, Files) || op in SW.AddExternalOps(f.externalFolders, Folders);
    PutsByKind(x, op);
  }

  lemma PutsByKind(x: ZipWrite, op: Op)
    ensures Puts(x, op) <==>
              || (exists p :: p in x.kept.files && op == PutOp(Files, x.place, p, x.kept.files[p]))
              || (exists p :: p in x.kept.folders && op == PutOp(Folders, x.place, p, x.kept.folders[p]))
  {
    if p :| p in x.kept.files && op == PutOp(Files, x.place, p, x.kept.files[p]) {
      assert p in x.kept.Of(Files);
    }
    if p :| p in x.kept.folders && op == PutOp(Folders, x.place, p, x.kept.folders[p]) {
      assert p in x.kept.Of(Folders);
    }
  }

  lemma {:induction false} InAllZipOps(zips: seq<ZipWrite>, op: Op)
    ensures op in AllZipOps(zips) <==> exists i :: 0 <= i < |zips| && op in ZipOps(zips[i])
  {
    if zips != [] {
      InAllZipOps(zips[1..], op);
      if i :| 0 <= i < |zips| && op in ZipOps(zips[i]) && i > 0 {
        assert op in ZipOps(zips[1..][i - 1]);
      }
    }
  }

  /** The operations at a path are the one that its zip, if any, puts there. */
  lemma TouchingOps(zips: seq<ZipWrite>, kind: Kind, p: string, op: Op)
    requires AllGood(zips) && op in AllZipOps(zips)
    ensures IsWrite(op)
    ensures Touches(op, kind, p) ==>
              exists i :: 0 <= i < |zips| && p in zips[i].kept.Of(kind) && op == PutOp(kind, zips[i].place, p, zips[i].kept.Of(kind)[p])
  {
    InAllZipOps(zips, op);
    var i :| 0 <= i < |zips| && op in ZipOps(zips[i]);
    ZipTouches(zips[i], kind, p, op);
  }

  lemma ZipTouches(x: ZipWrite, kind: Kind, p: string, op: Op)
    requires Good(x) && op in ZipOps(x)
    ensures IsWrite(op)
    ensures Touches(op, kind, p) ==> p in x.kept.Of(kind) && op == PutOp(kind, x.place, p, x.kept.Of(kind)[p])
  {
    InZipOps(x, op);
    if Puts(x, op) {
      var k: Kind, q :| q in x.kept.Of(k) && op == PutOp(k, x.place, q, x.kept.Of(k)[q]);
      PutTouches(k, x.place, q, x.kept.Of(k)[q], kind, p);
    }
  }

  lemma PutTouches(k: Kind, place: Option<string>, q: string, desc: Desc, kind: Kind, p: string)
    ensures var op := PutOp(k, place, q, desc); IsWrite(op) && (Touches(op, kind, p) <==> k == kind && q == p)
  {
  }

  lemma CarryingIsTidy(desc: Desc)
    requires ZipIdOf(desc).Some?
    ensures Tidy(desc) == desc
  {
  }

  /* ---- What the zips leave of a path ---- */

  /** What is stored before the k-th zip's turn. */
  function Before(w: Wrapper, zips: seq<ZipWrite>, k: nat): Wrapper
    requires k <= |zips|
  {
    DoAll(w, AllZipOps(zips[..k]))
  }

  lemma PutInZipOps(x: ZipWrite, kind: Kind, p: string)
    requires Good(x) && p in x.kept.Of(kind)
    ensures PutOp(kind, x.place, p, x.kept.Of(kind)[p]) in ZipOps(x)
  {
    assert Puts(x, PutOp(kind, x.place, p, x.kept.Of(kind)[p]));
    InZipOps(x, PutOp(kind, x.place, p, x.kept.Of(kind)[p]));
  }

  /** One zip puts what it keeps, and leaves the other paths. */
  lemma ZipSlots(u: Wrapper, x: ZipWrite, kind: Kind, loc: Option<string>, p: string)
    requires Good(x)
    ensures At(DoAll(u, ZipOps(x)).store, kind, loc, p) ==
            if p in x.kept.Of(kind) then SlotAfter(u, PutOp(kind, x.place, p, x.kept.Of(kind)[p]), kind, loc, p) else At(u.store, kind, loc, p)
  {
    var desc := if p in x.kept.Of(kind) then x.kept.Of(kind)[p] else map[];
    var put := PutOp(kind, x.place, p, desc);
    forall op | op in ZipOps(x) ensures IsWrite(op) && (Touches(op, kind, p) ==> p in x.kept.Of(kind) && op == put) { ZipTouches(x, kind, p, op); }
    SeqSlots(u, ZipOps(x), kind, x.place, p, desc, loc);
    PutTouches(kind, x.place, p, desc, kind, p);
    if p in x.kept.Of(kind) {
      PutInZipOps(x, kind, p);
    }
  }

  predicate KeepsInBase(x: ZipWrite, p: string) { p in x.kept.files && x.place.None? }

  lemma ZipNotes(u: Wrapper, x: ZipWrite, p: string)
    requires Good(x)
    ensures AddedOn(DoAll(u, ZipOps(x)), p) == if KeepsInBase(x, p) then [] else AddedOn(u, p)
  {
    forall op | op in ZipOps(x)
      ensures IsWrite(op) && (op.OpAddFile? && op.path == p ==> KeepsInBase(x, p))
    {
      ZipTouches(x, Files, p, op);
    }
    SeqNotes(u, ZipOps(x), p);
    if KeepsInBase(x, p) {
      assert p in x.kept.Of(Files);
      PutInZipOps(x, Files, p);
    }
  }

  /** The drives that the path is noted on at the k-th zip's turn. */
  function NotesAt(w: Wrapper, zips: seq<ZipWrite>, k: nat, p: string): seq<string>
    requires k <= |zips|
  {
    if k == 0 then AddedOn(w, p) else if KeepsInBase(zips[k - 1], p) then [] else NotesAt(w, zips, k - 1, p)
  }

  /** The zip takes the path from this section, to put its own entry here or elsewhere. */
  predicate Takes(w: Wrapper, zips: seq<ZipWrite>, i: nat, kind: Kind, loc: Option<string>, p: string)
    requires i < |zips|
  {
    var place := zips[i].place;
    && p in zips[i].kept.Of(kind)
    && (place == loc || place.None? || (kind.Files? && (loc.None? || loc.value in NotesAt(w, zips, i, p))))
  }

  /** None of the zips from a to before b takes it. */
  predicate Stays(w: Wrapper, zips: seq<ZipWrite>, a: nat, b: nat, kind: Kind, loc: Option<string>, p: string)
    requires b <= |zips|
  {
    forall i :: a <= i < b ==> !Takes(w, zips, i, kind, loc, p)
  }

  predicate PutHere(x: ZipWrite, kind: Kind, loc: Option<string>, p: string) { p in x.kept.Of(kind) && x.place == loc }

  /** What was stored, or else what some zip put there, or nothing of any zip. */
  ghost predicate SlotIs(w: Wrapper, zips: seq<ZipWrite>, n: nat, kind: Kind, loc: Option<string>, p: string, e: Option<Desc>)
    requires n <= |zips|
  {
    if Stays(w, zips, 0, n, kind, loc, p) then e == At(w.store, kind, loc, p)
    else e.None? || ZipIdOf(e.value).None? || exists i :: 0 <= i < n && PutHere(zips[i], kind, loc, p) && ZipIdOf(e.value) == Some(zips[i].id)
  }

  /** What a zip's turn makes of a section that had `was` of the path, which was noted on these drives. */
  predicate Turns(x: ZipWrite, kind: Kind, loc: Option<string>, p: string, notes: seq<string>, was: Option<Desc>, e: Option<Desc>) {
    if p !in x.kept.Of(kind) then e == was
    else if loc == x.place then
      e == Merged(kind, was, x.kept.Of(kind)[p]) && e.Some? && (ZipIdOf(e.value).None? || ZipIdOf(e.value) == Some(x.id))
    else if x.place.None? || (kind.Files? && (loc.None? || loc.value in notes)) then e.None?
    else e == was
  }

  lemma TurnIs(w: Wrapper, zips: seq<ZipWrite>, i: nat, kind: Kind, loc: Option<string>, p: string)
    requires AllGood(zips) && i < |zips|
    ensures var u := Before(w, zips, i);
            Turns(zips[i], kind, loc, p, AddedOn(u, p), At(u.store, kind, loc, p), At(Before(w, zips, i + 1).store, kind, loc, p))
  {
    var x := zips[i];
    StoredOneMore(w, zips, i);
    ZipSlots(Before(w, zips, i), x, kind, loc, p);
    if p in x.kept.Of(kind) {
      assert CarriesId(x.id, x.kept);
      CarryingIsTidy(x.kept.Of(kind)[p]);
    }
  }

  lemma {:induction false} NotesStay(w: Wrapper, zips: seq<ZipWrite>, k: nat, p: string)
    requires k <= |zips|
    ensures NotesAt(w, zips, k, p) == AddedOn(w, p) || exists b :: 0 <= b < k && KeepsInBase(zips[b], p)
  {
    if k > 0 {
      NotesStay(w, zips, k - 1, p);
    }
  }

  lemma NoteTurn(w: Wrapper, zips: seq<ZipWrite>, i: nat, p: string)
    requires AllGood(zips) && i < |zips|
    ensures AddedOn(Before(w, zips, i + 1), p) == if KeepsInBase(zips[i], p) then [] else AddedOn(Before(w, zips, i), p)
  {
    StoredOneMore(w, zips, i);
    ZipNotes(Before(w, zips, i), zips[i], p);
  }

  lemma BeforeAll(w: Wrapper, zips: seq<ZipWrite>)
    ensures Before(w, zips, 0) == w && Before(w, zips, |zips|) == DoAll(w, AllZipOps(zips))
  {
    assert zips[..0] == [] && zips[..|zips|] == zips;
  }

  lemma {:induction false} NotesRun(w: Wrapper, zips: seq<ZipWrite>, n: nat, p: string, notes: nat -> seq<string>)
    requires n <= |zips| && notes(0) == AddedOn(w, p)
    requires forall i: nat :: i < |zips| ==> notes(i + 1) == if KeepsInBase(zips[i], p) then [] else notes(i)
    ensures notes(n) == NotesAt(w, zips, n, p)
  {
    if n > 0 {
      NotesRun(w, zips, n - 1, p, notes);
    }
  }

  lemma NotesAre(w: Wrapper, zips: seq<ZipWrite>, n: nat, p: string)
    requires AllGood(zips) && n <= |zips|
    ensures AddedOn(Before(w, zips, n), p) == NotesAt(w, zips, n, p)
  {
    var notes := (i: nat) => if i <= |zips| then AddedOn(Before(w, zips, i), p) else [];
    BeforeAll(w, zips);
    forall i: nat | i < |zips|
      ensures notes(i + 1) == if KeepsInBase(zips[i], p) then [] else notes(i)
    {
      NoteTurn(w, zips, i, p);
    }
    NotesRun(w, zips, n, p, notes);
  }

  /** What a section has of the path at each zip's turn, and in the end. */
  function Course(w: Wrapper, zips: seq<ZipWrite>, kind: Kind, loc: Option<string>, p: string): nat -> Option<Desc> {
    (i: nat) => if i <= |zips| then At(Before(w, zips, i).store, kind, loc, p) else None
  }

  ghost predicate Goes(w: Wrapper, zips: seq<ZipWrite>, kind: Kind, loc: Option<string>, p: string, at: nat -> Option<Desc>) {
    forall i: nat :: i < |zips| ==> Turns(zips[i], kind, loc, p, NotesAt(w, zips, i, p), at(i), at(i + 1))
  }

  lemma CourseGoes(w: Wrapper, zips: seq<ZipWrite>, kind: Kind, loc: Option<string>, p: string)
    requires AllGood(zips)
    ensures Goes(w, zips, kind, loc, p, Course(w, zips, kind, loc, p))
    ensures Course(w, zips, kind, loc, p)(0) == At(w.store, kind, loc, p)
    ensures Course(w, zips, kind, loc, p)(|zips|) == At(DoAll(w, AllZipOps(zips)).store, kind, loc, p)
  {
    BeforeAll(w, zips);
    forall i: nat | i < |zips|
      ensures Turns(zips[i], kind, loc, p, NotesAt(w, zips, i, p), Course(w, zips, kind, loc, p)(i), Course(w, zips, kind, loc, p)(i + 1))
    {
      TurnIs(w, zips, i, kind, loc, p);
      NotesAre(w, zips, i, p);
    }
  }

  lemma SlotTurns(w: Wrapper, zips: seq<ZipWrite>, i: nat, kind: Kind, loc: Option<string>, p: string, was: Option<Desc>, e: Option<Desc>)
    requires i < |zips| && SlotIs(w, zips, i, kind, loc, p, was) && Turns(zips[i], kind, loc, p, NotesAt(w, zips, i, p), was, e)
    ensures SlotIs(w, zips, i + 1, kind, loc, p, e)
  {
    assert Stays(w, zips, 0, i + 1, kind, loc, p) <==> Stays(w, zips, 0, i, kind, loc, p) && !Takes(w, zips, i, kind, loc, p);
  }

  lemma {:induction false} SlotRuns(w: Wrapper, zips: seq<ZipWrite>, n: nat, kind: Kind, loc: Option<string>, p: string, at: nat -> Option<Desc>)
    requires n <= |zips| && Goes(w, zips, kind, loc, p, at) && at(0) == At(w.store, kind, loc, p)
    ensures SlotIs(w, zips, n, kind, loc, p, at(n))
  {
    if n > 0 {
      SlotRuns(w, zips, n - 1, kind, loc, p, at);
      SlotTurns(w, zips, n - 1, kind, loc, p, at(n - 1), at(n));
    }
  }

  /** Saving the filtered data and cleaning up change no entry, and leave the given filtered data. */
  lemma TailKeeps(v: Wrapper, data: map<string, Paths>, z: string)
    requires Apart(v)
    ensures var u := DoAll(v, [OpSaveFiltered(data), OpCleanupExternals]);
            && (forall kind: Kind, loc, p :: At(u.store, kind, loc, p) == At(v.store, kind, loc, p))
            && FilteredOf(u.store, z) == HeldBy(data, z)
  {
    var a := SaveFiltered(v, data);
    var ops := [OpSaveFiltered(data), OpCleanupExternals];
    assert ops[1..] == [OpCleanupExternals] && ops[1..][1..] == [];
    assert DoAll(v, ops) == DoAll(a, ops[1..]) == Do(a, OpCleanupExternals);
    FilteredDataIsSaved(v, data, z);
    CleanupKeeps(a);
  }

  lemma CleanupKeeps(a: Wrapper)
    requires Apart(a)
    ensures var u := CleanupExternals(a);
            u.store.filtered == a.store.filtered && forall kind: Kind, loc, p :: At(u.store, kind, loc, p) == At(a.store, kind, loc, p)
  {
    if a.store.external.Some? {
      var m := a.store.external.value;
      assert a.store.base.files - a.additions.files.Keys == a.store.base.files;
      assert a.store.base.folders - a.additions.folders.Keys == a.store.base.folders;
    }
  }

  /* ---- Regrouping what was stored ---- */

  /** The entry if it belongs to the zip. */
  function Belongs(e: Option<Desc>, z: string): Option<Desc> { if e.Some? && ZipIdOf(e.value) == Some(z) then e else None }

  /** What a section has of the zip for a path. */
  function Held(s: DbStore, kind: Kind, z: string, loc: Option<string>, p: string): Option<Desc> { Belongs(At(s, kind, loc, p), z) }

  /** Of what the sections have, the last drive's, or else the base section's. */
  function LastOf(held: Option<string> -> Option<Desc>, drives: seq<string>): Option<Desc> {
    if drives == [] then held(None)
    else
      var n := |drives| - 1;
      Over(LastOf(held, drives[..n]), held(Some(drives[n])))
  }

  lemma {:induction false} WinnerIsLast(s: DbStore, drives: seq<string>, kind: Kind, z: string, p: string, held: Option<string> -> Option<Desc>)
    requires forall loc :: held(loc) == Held(s, kind, z, loc, p)
    ensures Winner(s, drives, kind, z, p) == LastOf(held, drives)
    decreases |drives|
  {
    if drives == [] {
      assert Held(s, kind, z, None, p) == OfZip(s.base.Of(kind), z, p);
    } else {
      var n := |drives| - 1;
      WinnerIsLast(s, drives[..n], kind, z, p, held);
      assert OnDriveOfZip(s, kind, z, drives[n], p) == Held(s, kind, z, Some(drives[n]), p);
    }
  }

  lemma {:induction false} LastIsTheOnlyOne(held: Option<string> -> Option<Desc>, drives: seq<string>, loc: Option<string>)
    requires forall l :: l != loc ==> held(l).None?
    ensures LastOf(held, drives) == if loc.None? || loc.value in drives then held(loc) else None
    decreases |drives|
  {
    if drives != [] {
      var n := |drives| - 1;
      LastIsTheOnlyOne(held, drives[..n], loc);
      assert drives == drives[..n] + [drives[n]];
    }
  }

  lemma {:induction false} NobodyWins(s: DbStore, drives: seq<string>, kind: Kind, z: string, p: string)
    ensures Winner(s, drives, kind, z, p).None? <==>
              Held(s, kind, z, None, p).None? && forall d :: d in drives ==> Held(s, kind, z, Some(d), p).None?
    decreases |drives|
  {
    if drives == [] {
      assert Held(s, kind, z, None, p) == OfZip(s.base.Of(kind), z, p);
    } else {
      var n := |drives| - 1;
      NobodyWins(s, drives[..n], kind, z, p);
      assert drives == drives[..n] + [drives[n]];
      assert OnDriveOfZip(s, kind, z, drives[n], p) == Held(s, kind, z, Some(drives[n]), p);
    }
  }

  function Final(w: Wrapper, zips: seq<ZipWrite>, data: map<string, Paths>): Wrapper { DoAll(w, Writes(zips, data)) }

  lemma FinalIsAsAdded(w: Wrapper, zips: seq<ZipWrite>, data: map<string, Paths>, z: string)
    requires Apart(w)
    ensures forall kind: Kind, loc, p :: At(Final(w, zips, data).store, kind, loc, p) == At(DoAll(w, AllZipOps(zips)).store, kind, loc, p)
    ensures FilteredOf(Final(w, zips, data).store, z) == HeldBy(data, z)
  {
    CleanMeansUnchanged(w, AllZipOps(zips));
    DoAppend(w, AllZipOps(zips), [OpSaveFiltered(data), OpCleanupExternals]);
    TailKeeps(DoAll(w, AllZipOps(zips)), data, z);
  }

  /** One zip of the database was filtered and is stored with the others. */
  ghost predicate Stores(w: Wrapper, zips: seq<ZipWrite>, data: map<string, Paths>, k: nat, filter: Option<Filter>, index: Paths,
                         aside: map<string, Paths>)
  {
    && Apart(w) && AllGood(zips) && DistinctIds(zips)
    && k < |zips| && CarriesId(zips[k].id, index)
    && Selects(filter, index, zips[k].kept, aside)
    && HeldBy(data, zips[k].id) == HeldBy(aside, zips[k].id)
  }

  ghost predicate ReadyAll(w: Wrapper, zips: seq<ZipWrite>, kind: Kind) {
    forall i, p :: 0 <= i < |zips| && p in zips[i].kept.Of(kind) ==> Ready(w, kind, zips[i].place, p)
  }

  /** A folder that goes to a drive is recorded for this zip nowhere else. */
  ghost predicate NoCopies(w: Wrapper, x: ZipWrite, kind: Kind) {
    kind.Folders? && x.place.Some? ==>
      forall loc, p :: p in x.kept.folders && loc != x.place ==> Held(w.store, Folders, x.id, loc, p).None?
  }

  /** The filtered data of the zip is what its index lost. */
  lemma FilteredEntry(filter: Option<Filter>, index: Paths, kept: Paths, aside: map<string, Paths>, kind: Kind, z: string, p: string)
    requires Selects(filter, index, kept, aside) && CarriesId(z, index)
    ensures Lookup(HeldBy(aside, z).Of(kind), p) ==
            if p in index.Of(kind) && p !in kept.Of(kind) then Some(index.Of(kind)[p]) else None
  {
    var dropped := index.Of(kind) - kept.Of(kind).Keys;
    assert SetAside(aside, kind, dropped);
    var held := HeldBy(aside, z).Of(kind);
    assert p in held <==> p in dropped && ZipIdOf(dropped[p]) == Some(z);
  }

  /** The zip's own entry, while no later zip takes it. */
  ghost predicate OwnIs(w: Wrapper, zips: seq<ZipWrite>, k: nat, n: nat, kind: Kind, p: string, own: Option<Desc>, e: Option<Desc>)
    requires k < n <= |zips|
  {
    if Stays(w, zips, k + 1, n, kind, zips[k].place, p) then e == own else Belongs(e, zips[k].id).None?
  }

  lemma OwnTurns(w: Wrapper, zips: seq<ZipWrite>, k: nat, i: nat, kind: Kind, p: string, own: Option<Desc>, was: Option<Desc>, e: Option<Desc>)
    requires DistinctIds(zips) && k < i < |zips| && OwnIs(w, zips, k, i, kind, p, own, was)
    requires Turns(zips[i], kind, zips[k].place, p, NotesAt(w, zips, i, p), was, e)
    ensures OwnIs(w, zips, k, i + 1, kind, p, own, e)
  {
    assert zips[k].id != zips[i].id;
    assert Stays(w, zips, k + 1, i + 1, kind, zips[k].place, p) <==>
      Stays(w, zips, k + 1, i, kind, zips[k].place, p) && !Takes(w, zips, i, kind, zips[k].place, p);
  }

  lemma {:induction false} OwnRuns(w: Wrapper, zips: seq<ZipWrite>, k: nat, n: nat, kind: Kind, p: string, at: nat -> Option<Desc>)
    requires DistinctIds(zips) && k < n <= |zips| && Goes(w, zips, kind, zips[k].place, p, at)
    ensures OwnIs(w, zips, k, n, kind, p, at(k + 1), at(n))
    decreases n
  {
    if n > k + 1 {
      OwnRuns(w, zips, k, n - 1, kind, p, at);
      OwnTurns(w, zips, k, n - 1, kind, p, at(k + 1), at(n - 1), at(n));
    }
  }

  /** What the sections have of the zip for a path in the end: its own entry, or stale ones. */
  function Left(w: Wrapper, zips: seq<ZipWrite>, k: nat, kind: Kind, p: string): Option<string> -> Option<Desc>
    requires k < |zips|
  {
    (loc: Option<string>) =>
      var x := zips[k];
      if PutHere(x, kind, loc, p) then
        if Stays(w, zips, k + 1, |zips|, kind, loc, p) then
          Belongs(Merged(kind, At(Before(w, zips, k).store, kind, loc, p), x.kept.Of(kind)[p]), x.id)
        else None
      else if Stays(w, zips, 0, |zips|, kind, loc, p) then Held(w.store, kind, x.id, loc, p) else None
  }

  lemma LeftIsHeldAt(w: Wrapper, zips: seq<ZipWrite>, k: nat, kind: Kind, loc: Option<string>, p: string)
    requires AllGood(zips) && DistinctIds(zips) && k < |zips|
    ensures Left(w, zips, k, kind, p)(loc) == Belongs(Course(w, zips, kind, loc, p)(|zips|), zips[k].id)
  {
    var at := Course(w, zips, kind, loc, p);
    CourseGoes(w, zips, kind, loc, p);
    if PutHere(zips[k], kind, loc, p) {
      OwnRuns(w, zips, k, |zips|, kind, p, at);
      assert Turns(zips[k], kind, loc, p, NotesAt(w, zips, k, p), at(k), at(k + 1));
    } else {
      SlotRuns(w, zips, |zips|, kind, loc, p, at);
      StaleIs(w, zips, k, kind, loc, p, at(|zips|));
    }
  }

  lemma StaleIs(w: Wrapper, zips: seq<ZipWrite>, k: nat, kind: Kind, loc: Option<string>, p: string, e: Option<Desc>)
    requires DistinctIds(zips) && k < |zips| && !PutHere(zips[k], kind, loc, p) && SlotIs(w, zips, |zips|, kind, loc, p, e)
    ensures Belongs(e, zips[k].id) == if Stays(w, zips, 0, |zips|, kind, loc, p) then Held(w.store, kind, zips[k].id, loc, p) else None
  {
  }

  lemma LeftIsHeld(w: Wrapper, zips: seq<ZipWrite>, data: map<string, Paths>, k: nat, kind: Kind, p: string)
    requires Apart(w) && AllGood(zips) && DistinctIds(zips) && k < |zips|
    ensures forall loc :: Left(w, zips, k, kind, p)(loc) == Held(Final(w, zips, data).store, kind, zips[k].id, loc, p)
  {
    FinalIsAsAdded(w, zips, data, zips[k].id);
    forall loc
      ensures Left(w, zips, k, kind, p)(loc) == Held(Final(w, zips, data).store, kind, zips[k].id, loc, p)
    {
      LeftIsHeldAt(w, zips, k, kind, loc, p);
      CourseGoes(w, zips, kind, loc, p);
    }
  }

  lemma KeepersAgree(zips: seq<ZipWrite>, i: nat, kind: Kind, p: string)
    requires Disjoint(zips) && i < |zips| && p in zips[i].kept.Of(kind)
    ensures forall j :: 0 <= j < |zips| && p in zips[j].kept.Of(kind) ==> j == i
  {
    forall j | 0 <= j < |zips| && p in zips[j].kept.Of(kind)
      ensures j == i
    {
      assert Overlap(zips[j], zips[i]);
    }
  }

  lemma NobodyIsLast(held: Option<string> -> Option<Desc>, drives: seq<string>)
    requires forall loc: Option<string> :: held(loc).Some? ==> loc.None? || loc.value in drives
    ensures LastOf(held, drives).None? <==> forall loc :: held(loc).None?
  {
    NoneIsLast(held, drives);
  }

  lemma {:induction false} NoneIsLast(held: Option<string> -> Option<Desc>, drives: seq<string>)
    ensures LastOf(held, drives).None? <==> held(None).None? && forall d :: d in drives ==> held(Some(d)).None?
    decreases |drives|
  {
    if drives != [] {
      var n := |drives| - 1;
      NoneIsLast(held, drives[..n]);
      assert drives == drives[..n] + [drives[n]];
    }
  }

  /* ---- The round trip ---- */

  /** No section has an entry of the zip at a path that its index does not have, unless a zip takes it. */
  ghost predicate NoStale(w: Wrapper, zips: seq<ZipWrite>, k: nat, kind: Kind, index: Paths)
    requires k < |zips|
  {
    forall p :: p !in index.Of(kind) ==> NothingLeft(w, zips, k, kind, p)
  }

  ghost predicate NothingLeft(w: Wrapper, zips: seq<ZipWrite>, k: nat, kind: Kind, p: string)
    requires k < |zips|
  {
    forall loc :: Stays(w, zips, 0, |zips|, kind, loc, p) ==> Held(w.store, kind, zips[k].id, loc, p).None?
  }

  /** No later zip takes an entry of the zip. */
  ghost predicate NoneTaken(w: Wrapper, zips: seq<ZipWrite>, k: nat, kind: Kind)
    requires k < |zips|
  {
    forall p :: p in zips[k].kept.Of(kind) ==> Stays(w, zips, k + 1, |zips|, kind, zips[k].place, p)
  }

  /** The stored folder is taken for the new one although regrouping shows another, or none. */
  ghost predicate Shadows(s: DbStore, z: string, stored: Option<Desc>, desc: Desc) {
    && stored.Some? && Same(Folders, stored.value, desc)
    && (ZipIdOf(stored.value) != Some(z) || Shown(s, z, stored.value) != Shown(s, z, desc))
  }

  ghost predicate NoneShadowed(w: Wrapper, s: DbStore, x: ZipWrite) {
    forall p :: p in x.kept.folders ==> !ShadowedAt(w, s, x, p)
  }

  ghost predicate ShadowedAt(w: Wrapper, s: DbStore, x: ZipWrite, p: string) {
    p in x.kept.folders && Shadows(s, x.id, At(w.store, Folders, x.place, p), x.kept.folders[p])
  }

  ghost predicate SummariesOf(s: DbStore, drives: seq<string>, summaries: map<string, Paths>) {
    Orders(drives, s) && forall kind, z, p :: Entry(summaries, kind, z, p) == MarkedFor(s, z, Regrouped(s, drives, kind, z, p))
  }

  function ShownAll(s: DbStore, z: string, m: map<string, Desc>): map<string, Desc> { if IsPext(s, z) then MarkAll(m) else m }

  lemma SameLookups(a: map<string, Desc>, b: map<string, Desc>)
    requires forall p :: Lookup(a, p) == Lookup(b, p)
    ensures a == b
  {
    forall p ensures p in a <==> p in b { assert Lookup(a, p) == Lookup(b, p); }
    forall p | p in a ensures a[p] == b[p] { assert Lookup(a, p) == Lookup(b, p); }
  }

  /** Path by path: the summary has what the index has. */
  ghost predicate PathIsRestored(w: Wrapper, zips: seq<ZipWrite>, data: map<string, Paths>, k: nat, index: Paths, kind: Kind,
                                 summaries: map<string, Paths>, p: string)
    requires k < |zips|
  {
    Entry(summaries, kind, zips[k].id, p) == MarkedFor(Final(w, zips, data).store, zips[k].id, Lookup(index.Of(kind), p))
  }

  lemma RestoredPathByPath(w: Wrapper, zips: seq<ZipWrite>, data: map<string, Paths>, k: nat, index: Paths, kind: Kind,
                           summaries: map<string, Paths>)
    requires k < |zips|
    ensures HeldBy(summaries, zips[k].id).Of(kind) == ShownAll(Final(w, zips, data).store, zips[k].id, index.Of(kind)) <==>
              forall p :: PathIsRestored(w, zips, data, k, index, kind, summaries, p)
  {
    var z, s := zips[k].id, Final(w, zips, data).store;
    var a, b := HeldBy(summaries, z).Of(kind), ShownAll(s, z, index.Of(kind));
    assert forall p :: Lookup(b, p) == MarkedFor(s, z, Lookup(index.Of(kind), p));
    assert forall p :: Lookup(a, p) == Entry(summaries, kind, z, p);
    if forall p :: PathIsRestored(w, zips, data, k, index, kind, summaries, p) {
      forall p ensures Lookup(a, p) == Lookup(b, p) { assert PathIsRestored(w, zips, data, k, index, kind, summaries, p); }
      SameLookups(a, b);
    }
  }

  /** What regrouping finds for the path is what the index has for it. */
  ghost predicate GetsBack(w: Wrapper, zips: seq<ZipWrite>, k: nat, s: DbStore, index: Paths, kind: Kind, drives: seq<string>, p: string)
    requires k < |zips|
  {
    var x, last := zips[k], LastOf(Left(w, zips, k, kind, p), drives);
    if p in x.kept.Of(kind) then MarkedFor(s, x.id, last) == MarkedFor(s, x.id, Some(x.kept.Of(kind)[p]))
    else p in index.Of(kind) || last.None?
  }

  lemma PathIsRestoredIff(w: Wrapper, zips: seq<ZipWrite>, data: map<string, Paths>, k: nat, filter: Option<Filter>, index: Paths,
                          aside: map<string, Paths>, drives: seq<string>, summaries: map<string, Paths>, kind: Kind, p: string)
    requires Stores(w, zips, data, k, filter, index, aside)
    requires SummariesOf(Final(w, zips, data).store, drives, summaries)
    ensures PathIsRestored(w, zips, data, k, index, kind, summaries, p) <==> GetsBack(w, zips, k, Final(w, zips, data).store, index, kind, drives, p)
  {
    var x, s := zips[k], Final(w, zips, data).store;
    assert Entry(summaries, kind, x.id, p) == MarkedFor(s, x.id, Regrouped(s, drives, kind, x.id, p));
    LeftIsHeld(w, zips, data, k, kind, p);
    WinnerIsLast(s, drives, kind, x.id, p, Left(w, zips, k, kind, p));
    FinalIsAsAdded(w, zips, data, x.id);
    FilteredEntry(filter, index, x.kept, aside, kind, x.id, p);
  }

  /**
   Any zips, which may share paths: a zip is filtered with any filter, the kept part of every zip
   of the database is written to the store, the rest is saved as filtered data. Regrouping gives
   back exactly the zip's entries if and only if of what is left of the zip at a path, the section
   that regrouping prefers has what the zip kept there, and nothing is left at a path that the zip
   does not have.
   */
  lemma EntriesAreRestoredIff(w: Wrapper, zips: seq<ZipWrite>, data: map<string, Paths>, k: nat, filter: Option<Filter>, index: Paths,
                              aside: map<string, Paths>, drives: seq<string>, summaries: map<string, Paths>, kind: Kind)
    requires Stores(w, zips, data, k, filter, index, aside)
    requires SummariesOf(Final(w, zips, data).store, drives, summaries)
    ensures HeldBy(summaries, zips[k].id).Of(kind) == ShownAll(Final(w, zips, data).store, zips[k].id, index.Of(kind)) <==>
              forall p :: GetsBack(w, zips, k, Final(w, zips, data).store, index, kind, drives, p)
  {
    RestoredPathByPath(w, zips, data, k, index, kind, summaries);
    forall p
      ensures PathIsRestored(w, zips, data, k, index, kind, summaries, p) <==> GetsBack(w, zips, k, Final(w, zips, data).store, index, kind, drives, p)
    {
      PathIsRestoredIff(w, zips, data, k, filter, index, aside, drives, summaries, kind, p);
    }
  }

  /** Nothing of the zip is left at a path that it keeps, but in the place where it puts it. */
  ghost predicate OnePlace(w: Wrapper, zips: seq<ZipWrite>, k: nat, kind: Kind)
    requires k < |zips|
  {
    forall p, loc :: p in zips[k].kept.Of(kind) && loc != zips[k].place ==> Left(w, zips, k, kind, p)(loc).None?
  }

  lemma ReadyIsOnePlace(w: Wrapper, zips: seq<ZipWrite>, k: nat)
    requires k < |zips| && ReadyAll(w, zips, Files)
    ensures OnePlace(w, zips, k, Files)
  {
    forall p, loc | p in zips[k].kept.Of(Files) && loc != zips[k].place
      ensures Left(w, zips, k, Files, p)(loc).None?
    {
      if Stays(w, zips, 0, |zips|, Files, loc, p) {
        assert !Takes(w, zips, k, Files, loc, p);
        assert loc.Some? && zips[k].place.Some? && loc.value !in NotesAt(w, zips, k, p);
        NotesStay(w, zips, k, p);
        if b :| 0 <= b < k && KeepsInBase(zips[b], p) {
          assert Takes(w, zips, b, Files, loc, p);
        }
        assert !OnDrive(w.store, Files, loc.value, p);
      }
    }
  }

  lemma NoCopiesIsOnePlace(w: Wrapper, zips: seq<ZipWrite>, k: nat)
    requires k < |zips| && NoCopies(w, zips[k], Folders)
    ensures OnePlace(w, zips, k, Folders)
  {
    forall p, loc | p in zips[k].kept.Of(Folders) && loc != zips[k].place
      ensures Left(w, zips, k, Folders, p)(loc).None?
    {
      if zips[k].place.None? {
        assert Takes(w, zips, k, Folders, loc, p);
      } else {
        assert Held(w.store, Folders, zips[k].id, loc, p).None?;
      }
    }
  }

  lemma NothingLeftIff(w: Wrapper, zips: seq<ZipWrite>, k: nat, kind: Kind, p: string)
    requires k < |zips| && p !in zips[k].kept.Of(kind)
    ensures (forall loc :: Left(w, zips, k, kind, p)(loc).None?) <==> NothingLeft(w, zips, k, kind, p)
  {
    var left := Left(w, zips, k, kind, p);
    forall loc
      ensures left(loc).None? <==> (Stays(w, zips, 0, |zips|, kind, loc, p) ==> Held(w.store, kind, zips[k].id, loc, p).None?)
    {
    }
  }

  lemma GetsBackIff(w: Wrapper, zips: seq<ZipWrite>, data: map<string, Paths>, k: nat, filter: Option<Filter>, index: Paths,
                    aside: map<string, Paths>, drives: seq<string>, kind: Kind, p: string)
    requires Stores(w, zips, data, k, filter, index, aside) && OnePlace(w, zips, k, kind)
    requires Orders(drives, Final(w, zips, data).store)
    ensures var x, s := zips[k], Final(w, zips, data).store;
            GetsBack(w, zips, k, s, index, kind, drives, p) <==>
              if p in x.kept.Of(kind) then
                && Stays(w, zips, k + 1, |zips|, kind, x.place, p)
                && (kind.Folders? ==> !ShadowedAt(Before(w, zips, k), s, x, p))
              else p in index.Of(kind) || NothingLeft(w, zips, k, kind, p)
  {
    var x, s, left := zips[k], Final(w, zips, data).store, Left(w, zips, k, kind, p);
    LeftIsHeld(w, zips, data, k, kind, p);
    forall loc: Option<string> | left(loc).Some?
      ensures loc.None? || loc.value in drives
    {
      assert Held(s, kind, x.id, loc, p).Some?;
    }
    if p in x.kept.Of(kind) {
      LastIsTheOnlyOne(left, drives, x.place);
      assert CarriesId(x.id, x.kept);
      ShownOf(s, kind, x.id, At(Before(w, zips, k).store, kind, x.place, p), x.kept.Of(kind)[p]);
    } else {
      NobodyIsLast(left, drives);
      NothingLeftIff(w, zips, k, kind, p);
    }
  }

  lemma ShownOf(s: DbStore, kind: Kind, z: string, stored: Option<Desc>, desc: Desc)
    requires ZipIdOf(desc) == Some(z)
    ensures MarkedFor(s, z, Belongs(Merged(kind, stored, desc), z)) == MarkedFor(s, z, Some(desc)) <==>
              (kind.Folders? ==> !Shadows(s, z, stored, desc))
  {
  }

  /**
   Files, when each that goes to a drive is on no other drive, except noted ones: the zip gets
   exactly its files back if and only if no later zip takes one of them, and no stale entry of the
   zip survives at a path that it no longer has.
   */
  lemma FilesAreRestoredIff(w: Wrapper, zips: seq<ZipWrite>, data: map<string, Paths>, k: nat, filter: Option<Filter>, index: Paths,
                            aside: map<string, Paths>, drives: seq<string>, summaries: map<string, Paths>)
    requires Stores(w, zips, data, k, filter, index, aside) && ReadyAll(w, zips, Files)
    requires SummariesOf(Final(w, zips, data).store, drives, summaries)
    ensures HeldBy(summaries, zips[k].id).files == ShownAll(Final(w, zips, data).store, zips[k].id, index.files) <==>
              NoneTaken(w, zips, k, Files) && NoStale(w, zips, k, Files, index)
  {
    var x, s := zips[k], Final(w, zips, data).store;
    EntriesAreRestoredIff(w, zips, data, k, filter, index, aside, drives, summaries, Files);
    ReadyIsOnePlace(w, zips, k);
    forall p
      ensures GetsBack(w, zips, k, s, index, Files, drives, p) <==>
                if p in x.kept.Of(Files) then Stays(w, zips, k + 1, |zips|, Files, x.place, p)
                else p in index.Of(Files) || NothingLeft(w, zips, k, Files, p)
    {
      GetsBackIff(w, zips, data, k, filter, index, aside, drives, Files, p);
    }
    KeptIsIndexed(filter, index, x.kept, aside, Files);
  }

  /**
   Folders, when one that goes to a drive is recorded for the zip nowhere else: the same if and
   only if, besides, no folder that is stored at the zip's place when its turn comes is taken for
   the new one although it shows something else.
   */
  lemma FoldersAreRestoredIff(w: Wrapper, zips: seq<ZipWrite>, data: map<string, Paths>, k: nat, filter: Option<Filter>, index: Paths,
                              aside: map<string, Paths>, drives: seq<string>, summaries: map<string, Paths>)
    requires Stores(w, zips, data, k, filter, index, aside) && NoCopies(w, zips[k], Folders)
    requires SummariesOf(Final(w, zips, data).store, drives, summaries)
    ensures HeldBy(summaries, zips[k].id).folders == ShownAll(Final(w, zips, data).store, zips[k].id, index.folders) <==>
              && NoneTaken(w, zips, k, Folders) && NoStale(w, zips, k, Folders, index)
              && NoneShadowed(Before(w, zips, k), Final(w, zips, data).store, zips[k])
  {
    var x, s := zips[k], Final(w, zips, data).store;
    EntriesAreRestoredIff(w, zips, data, k, filter, index, aside, drives, summaries, Folders);
    NoCopiesIsOnePlace(w, zips, k);
    forall p
      ensures GetsBack(w, zips, k, s, index, Folders, drives, p) <==>
                if p in x.kept.Of(Folders) then
                  Stays(w, zips, k + 1, |zips|, Folders, x.place, p) && !ShadowedAt(Before(w, zips, k), s, x, p)
                else p in index.Of(Folders) || NothingLeft(w, zips, k, Folders, p)
    {
      GetsBackIff(w, zips, data, k, filter, index, aside, drives, Folders, p);
    }
    KeptIsIndexed(filter, index, x.kept, aside, Folders);
  }

  lemma KeptIsIndexed(filter: Option<Filter>, index: Paths, kept: Paths, aside: map<string, Paths>, kind: Kind)
    requires Selects(filter, index, kept, aside)
    ensures forall p :: p in kept.Of(kind) ==> p in index.Of(kind)
  {
  }

  /* ---- When the conditions hold ---- */

  /** Where a zip's files were put before, if anywhere since the store was wrapped, is where the zip puts them. */
  ghost predicate AgreesWith(zips: seq<ZipWrite>, put: map<string, string>) {
    forall i, p :: 0 <= i < |zips| && p in zips[i].kept.files && zips[i].place.Some? && p in put ==> put[p] == zips[i].place.value
  }

  lemma LocatedIsReady(w: Wrapper, zips: seq<ZipWrite>, put: map<string, string>)
    requires Located(w, put) && AgreesWith(zips, put)
    ensures ReadyAll(w, zips, Files)
  {
    forall i, p | 0 <= i < |zips| && p in zips[i].kept.Of(Files)
      ensures Ready(w, Files, zips[i].place, p)
    {
      if zips[i].place.Some? {
        forall d | OnDrive(w.store, Files, d, p)
          ensures d in AddedOn(w, p) || d == zips[i].place.value
        {
          assert Noted(w, put, d, p);
        }
      }
    }
  }

  ghost predicate OneOpPerFile(ops: seq<Op>) {
    forall i, j, p: string :: 0 <= i < |ops| && 0 <= j < |ops| && Touches(ops[i], Files, p) && Touches(ops[j], Files, p) ==> ops[i] == ops[j]
  }

  lemma OneDriveStays(a: Op, b: Op, put: map<string, string>)
    requires OneDrive(a, put) && IsWrite(a) && IsWrite(b)
    requires forall p :: Touches(a, Files, p) && Touches(b, Files, p) ==> a == b
    ensures OneDrive(b, PutSince(put, a)) <==> OneDrive(b, put)
  {
    if b.OpAddExternalFile? {
      assert Touches(b, Files, b.path);
      if a.OpAddFile? || a.OpAddExternalFile? {
        assert Touches(a, Files, a.path);
      }
    }
  }

  lemma {:induction false} OneDriveEachIff(ops: seq<Op>, put: map<string, string>)
    requires OneOpPerFile(ops) && forall i :: 0 <= i < |ops| ==> IsWrite(ops[i])
    ensures OneDriveEach(ops, put) <==> forall i :: 0 <= i < |ops| ==> OneDrive(ops[i], put)
    decreases |ops|
  {
    if ops != [] && OneDrive(ops[0], put) {
      var rest := ops[1..];
      assert forall i :: 0 <= i < |rest| ==> rest[i] == ops[i + 1];
      OneDriveEachIff(rest, PutSince(put, ops[0]));
      forall i | 0 <= i < |rest|
        ensures OneDrive(rest[i], PutSince(put, ops[0])) <==> OneDrive(ops[i + 1], put)
      {
        OneDriveStays(ops[0], ops[i + 1], put);
      }
    }
  }

  lemma ZipOpsAreWrites(zips: seq<ZipWrite>)
    requires AllGood(zips) && Disjoint(zips)
    ensures OneOpPerFile(AllZipOps(zips)) && forall i :: 0 <= i < |AllZipOps(zips)| ==> IsWrite(AllZipOps(zips)[i])
  {
    var ops := AllZipOps(zips);
    forall i | 0 <= i < |ops| ensures IsWrite(ops[i]) { TouchingOps(zips, Files, "", ops[i]); }
    forall i, j, p: string | 0 <= i < |ops| && 0 <= j < |ops| && Touches(ops[i], Files, p) && Touches(ops[j], Files, p)
      ensures ops[i] == ops[j]
    {
      TouchingOps(zips, Files, p, ops[i]);
      TouchingOps(zips, Files, p, ops[j]);
      var a :| 0 <= a < |zips| && p in zips[a].kept.Of(Files) && ops[i] == PutOp(Files, zips[a].place, p, zips[a].kept.Of(Files)[p]);
      KeepersAgree(zips, a, Files, p);
    }
  }

  /**
   The importer puts every external file of a zip on its drive twice, once on its own and once with
   the zip's summary. The two name one drive exactly when every file of a zip was put where the zip
   goes.
   */
  lemma ZipPutsAgreeIff(zips: seq<ZipWrite>, put: map<string, string>)
    requires AllGood(zips) && Disjoint(zips)
    ensures OneDriveEach(AllZipOps(zips), put) <==> AgreesWith(zips, put)
  {
    var ops := AllZipOps(zips);
    ZipOpsAreWrites(zips);
    OneDriveEachIff(ops, put);
    if AgreesWith(zips, put) {
      forall i | 0 <= i < |ops|
        ensures OneDrive(ops[i], put)
      {
        if ops[i].OpAddExternalFile? {
          TouchingOps(zips, Files, ops[i].path, ops[i]);
        }
      }
    } else {
      var i, p :| 0 <= i < |zips| && p in zips[i].kept.files && zips[i].place.Some? && p in put && put[p] != zips[i].place.value;
      var op := PutOp(Files, zips[i].place, p, zips[i].kept.files[p]);
      assert p in zips[i].kept.Of(Files);
      InZipOps(zips[i], op);
      InAllZipOps(zips, op);
      var n :| 0 <= n < |ops| && ops[n] == op;
      assert !OneDrive(ops[n], put);
    }
  }

  /**
   The importer's writes from a wrapped store: whatever comes first, then the zips. If no file is
   put on two drives, each file ends in one place and the round trip's conditions hold.
   */
  lemma ImporterKeepsOnePlace(s: DbStore, f: Fingerprint, w0: Wrapper, first: seq<Op>, zips: seq<ZipWrite>, data: map<string, Paths>)
    requires Single(s) && Wraps(s, f, w0) && OneDriveEach(first, map[])
    requires AllGood(zips) && Disjoint(zips) && AgreesWith(zips, PutAfter(first, map[]))
    ensures var w := DoAll(w0, first);
            Apart(w) && ReadyAll(w, zips, Files) && Single(Final(w, zips, data).store)
  {
    var w, put := DoAll(w0, first), PutAfter(first, map[]);
    WrappedIsLocated(s, f, w0);
    DoAllLocates(w0, first, map[]);
    CleanMeansUnchanged(w0, first);
    LocatedIsReady(w, zips, put);
    ZipPutsAgreeIff(zips, put);
    DoAllLocates(w, AllZipOps(zips), put);
    var v, later := DoAll(w, AllZipOps(zips)), PutAfter(AllZipOps(zips), put);
    var tail := [OpSaveFiltered(data), OpCleanupExternals];
    assert tail[1..] == [OpCleanupExternals] && tail[1..][1..] == [];
    assert OneDriveEach(tail[1..], later) && OneDriveEach(tail, later);
    DoAllLocates(v, tail, later);
    DoAppend(w, AllZipOps(zips), tail);
  }

  /* ---- When they do not ---- */

  lemma {:induction false} AllZipOpsAppend(a: seq<ZipWrite>, b: seq<ZipWrite>)
    ensures AllZipOps(a + b) == AllZipOps(a) + AllZipOps(b)
  {
    if a == [] {
      assert a + b == b;
    } else {
      assert (a + b)[1..] == a[1..] + b;
      AllZipOpsAppend(a[1..], b);
    }
  }

  lemma AllZipOpsOne(x: ZipWrite)
    ensures AllZipOps([x]) == ZipOps(x)
  {
    assert [x][1..] == [];
    assert AllZipOps([x]) == ZipOps(x) + AllZipOps([x][1..]);
  }

  /** The last zip that keeps a file in the base section owns it, whatever the store and the other zips are. */
  lemma LastZipOwnsTheFile(w: Wrapper, zips: seq<ZipWrite>, data: map<string, Paths>, k: nat, p: string)
    requires Apart(w) && AllGood(zips) && k < |zips| && p in zips[k].kept.files && zips[k].place.None?
    requires forall i :: k < i < |zips| ==> p !in zips[i].kept.files
    ensures forall loc :: At(Final(w, zips, data).store, Files, loc, p) == if loc.None? then Some(zips[k].kept.files[p]) else None
  {
    FinalIsAsAdded(w, zips, data, zips[k].id);
    forall loc
      ensures At(Final(w, zips, data).store, Files, loc, p) == if loc.None? then Some(zips[k].kept.files[p]) else None
    {
      LastPutStays(w, zips, k, loc, p);
      CourseGoes(w, zips, Files, loc, p);
    }
  }

  lemma LastPutStays(w: Wrapper, zips: seq<ZipWrite>, k: nat, loc: Option<string>, p: string)
    requires AllGood(zips) && k < |zips| && p in zips[k].kept.files && zips[k].place.None?
    requires forall i :: k < i < |zips| ==> p !in zips[i].kept.files
    ensures Course(w, zips, Files, loc, p)(|zips|) == if loc.None? then Some(zips[k].kept.files[p]) else None
  {
    var at := Course(w, zips, Files, loc, p);
    assert p in zips[k].kept.Of(Files);
    CourseGoes(w, zips, Files, loc, p);
    LaterTurnsKeep(w, zips, k + 1, |zips|, Files, loc, p, at);
    assert Turns(zips[k], Files, loc, p, NotesAt(w, zips, k, p), at(k), at(k + 1));
  }

  lemma {:induction false} LaterTurnsKeep(w: Wrapper, zips: seq<ZipWrite>, a: nat, b: nat, kind: Kind, loc: Option<string>, p: string,
                                          at: nat -> Option<Desc>)
    requires a <= b <= |zips| && Goes(w, zips, kind, loc, p, at) && forall i :: a <= i < b ==> p !in zips[i].kept.Of(kind)
    ensures at(b) == at(a)
    decreases b - a
  {
    if a < b {
      LaterTurnsKeep(w, zips, a, b - 1, kind, loc, p, at);
    }
  }

  /** So an earlier zip that keeps the file too does not get it back. */
  lemma SharedFileIsLost(w: Wrapper, zips: seq<ZipWrite>, data: map<string, Paths>, i: nat, k: nat, p: string, filter: Option<Filter>,
                         index: Paths, aside: map<string, Paths>, drives: seq<string>, summaries: map<string, Paths>)
    requires Apart(w) && AllGood(zips) && i < k < |zips| && zips[i].id != zips[k].id
    requires p in zips[i].kept.files && p in zips[k].kept.files && zips[k].place.None?
    requires forall j :: k < j < |zips| ==> p !in zips[j].kept.files
    requires CarriesId(zips[i].id, index) && Selects(filter, index, zips[i].kept, aside)
    requires HeldBy(data, zips[i].id) == HeldBy(aside, zips[i].id) && SummariesOf(Final(w, zips, data).store, drives, summaries)
    ensures p in index.files && p !in HeldBy(summaries, zips[i].id).files
  {
    var z, s := zips[i].id, Final(w, zips, data).store;
    LastZipOwnsTheFile(w, zips, data, k, p);
    assert p in zips[k].kept.Of(Files) && p in zips[i].kept.Of(Files) && CarriesId(zips[k].id, zips[k].kept);
    forall loc ensures Held(s, Files, z, loc, p).None? { assert At(s, Files, loc, p).Some? ==> loc.None?; }
    NobodyWins(s, drives, Files, z, p);
    FinalIsAsAdded(w, zips, data, z);
    FilteredEntry(filter, index, zips[i].kept, aside, Files, z, p);
    assert Entry(summaries, Files, z, p) == MarkedFor(s, z, Regrouped(s, drives, Files, z, p));
  }

  const OldFolder: Desc := map["zip_id" := Text("z"), "tags" := Items([])]
  const NewFolder: Desc := map["zip_id" := Text("z")]

  function FolderStore(): Wrapper {
    Wrapper(DbStore(Paths(map[], map["a" := OldFolder]), None, map[], None, None), NoFingerprint, Additions(map[], map[]), false)
  }

  function FolderZip(): ZipWrite {
    var kept := Paths(map[], map["a" := NewFolder]);
    ZipWrite("z", Zip(map[], NoPaths), false, None, kept, SW.Fragment([], [("a", NewFolder)], [], []))
  }

  lemma FolderZipIsStored()
    ensures Stores(FolderStore(), [FolderZip()], map[], 0, None, FolderZip().kept, map[])
  {
    var x := FolderZip();
    assert x.fragment.folders[0] == ("a", NewFolder);
    assert Good(x);
  }

  lemma NewFolderIsShadowed(s: DbStore)
    ensures ShadowedAt(FolderStore(), s, FolderZip(), "a")
  {
    assert At(FolderStore().store, Folders, None, "a") == Some(OldFolder);
    assert NewFolder.Keys == {"zip_id"} && OldFolder.Keys == {"zip_id", "tags"};
    assert Same(Folders, OldFolder, NewFolder);
    assert "tags" in Shown(s, "z", OldFolder) && "tags" !in Shown(s, "z", NewFolder);
  }

  function FolderEnd(): DbStore { Final(FolderStore(), [FolderZip()], map[]).store }

  /** A folder that lost a field since it was stored comes back with the field. */
  lemma StoredFolderKeepsOldFields()
    ensures forall drives, summaries :: SummariesOf(FolderEnd(), drives, summaries) ==>
              HeldBy(summaries, "z").folders != ShownAll(FolderEnd(), "z", FolderZip().kept.folders)
  {
    forall drives, summaries | SummariesOf(FolderEnd(), drives, summaries)
      ensures HeldBy(summaries, "z").folders != ShownAll(FolderEnd(), "z", FolderZip().kept.folders)
    {
      FolderZipIsStored();
      NewFolderIsShadowed(FolderEnd());
      FoldersAreRestoredIff(FolderStore(), [FolderZip()], map[], 0, None, FolderZip().kept, map[], drives, summaries);
    }
  }

  /* ---- The code ---- */

  lemma DoFirst(w: Wrapper, op: Op, rest: seq<Op>)
    ensures DoAll(w, [op] + rest) == DoAll(Do(w, op), rest)
  {
    assert ([op] + rest)[1..] == rest;
  }

  lemma SetZipIs(u: Wrapper, x: ZipWrite)
    ensures Do(u, OpSetZip(x.id, x.zip, x.same)) == SetZip(u, x.id, x.zip, x.same)
  {
  }

  lemma ZipOpsDo(u: Wrapper, x: ZipWrite)
    ensures DoAll(u, ZipOps(x)) == DoAll(SetZip(u, x.id, x.zip, x.same), SW.FragmentOps(x.fragment))
  {
    var op, rest := OpSetZip(x.id, x.zip, x.same), SW.FragmentOps(x.fragment);
    SetZipIs(u, x);
    DoFirst(u, op, rest);
    assert ZipOps(x) == [op] + rest;
  }

  lemma StoredOneMore(w: Wrapper, zips: seq<ZipWrite>, i: nat)
    requires i < |zips|
    ensures DoAll(w, AllZipOps(zips[..i + 1])) == DoAll(DoAll(w, AllZipOps(zips[..i])), ZipOps(zips[i]))
  {
    assert zips[..i + 1] == zips[..i] + [zips[i]];
    AllZipOpsAppend(zips[..i], [zips[i]]);
    AllZipOpsOne(zips[i]);
    DoAppend(w, AllZipOps(zips[..i]), ZipOps(zips[i]));
  }

  lemma TailDo(v: Wrapper, data: map<string, Paths>)
    ensures DoAll(v, [OpSaveFiltered(data), OpCleanupExternals]) == Do(Do(v, OpSaveFiltered(data)), OpCleanupExternals)
  {
    var tail := [OpSaveFiltered(data), OpCleanupExternals];
    var rest := tail[1..];
    assert rest == [OpCleanupExternals] && rest[1..] == [];
    var u := Do(v, tail[0]);
    assert DoAll(v, tail) == DoAll(u, rest) == DoAll(Do(u, rest[0]), rest[1..]);
  }

  /** The end of an update for one database: the summaries of its zips, its filtered data, the clean-up. */
  method StoreZips(adapter: SW.WriteOnlyStoreAdapter, zips: seq<ZipWrite>, data: map<string, Paths>)
    modifies adapter
    ensures adapter.View() == Final(old(adapter.View()), zips, data)
  {
    ghost var w := adapter.View();
    StoreSummaries(adapter, zips);
    TailDo(adapter.View(), data);
    DoAppend(w, AllZipOps(zips), [OpSaveFiltered(data), OpCleanupExternals]);
    adapter.SaveFilteredZipData(data);
    adapter.CleanupExternals();
  }

  method StoreSummaries(adapter: SW.WriteOnlyStoreAdapter, zips: seq<ZipWrite>)
    modifies adapter
    ensures adapter.View() == DoAll(old(adapter.View()), AllZipOps(zips))
  {
    ghost var w := adapter.View();
    for i := 0 to |zips|
      invariant adapter.View() == DoAll(w, AllZipOps(zips[..i]))
    {
      ghost var u := adapter.View();
      adapter.AddZipSummary(zips[i].id, zips[i].zip, zips[i].same, zips[i].fragment);
      ZipOpsDo(u, zips[i]);
      StoredOneMore(w, zips, i);
    }
    assert zips[..|zips|] == zips;
  }
}
