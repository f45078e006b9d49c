/**
 Filtering a database or a zip by tags (src/downloader/file_filter.py). What is filtered out and
 belongs to a zip is kept aside under that zip; a folder stays when something in it stays.
 */
module FileFilter {
  import opened Prelude
  import opened Store

  datatype Filter = Filter(positive: seq<Value>, negative: seq<Value>)

  function TagsOf(desc: Desc): seq<Value> { if "tags" in desc && desc["tags"].Items? then desc["tags"].items else [] }

  /** Wanted terms, if any, must be met, and unwanted ones must not. */
  predicate Filtered(filter: Filter, desc: Desc) {
    || (filter.positive != [] && forall part :: part in filter.positive ==> part !in TagsOf(desc))
    || (exists part :: part in filter.negative && part in TagsOf(desc))
  }

  method IsFiltered(filter: Filter, desc: Desc) returns (filtered: bool)
    ensures filtered <==> Filtered(filter, desc)
    ensures filtered <==>
              || (filter.positive != [] && forall part :: part in filter.positive ==> part !in TagsOf(desc))
              || exists part :: part in filter.negative && part in TagsOf(desc)
  {
    var tags := TagsOf(desc);
    filtered := |filter.positive| > 0;
    for i := 0 to |filter.positive|
      invariant filtered <==> filter.positive != [] && forall part :: part in filter.positive[..i] ==> part !in tags
    {
      if filter.positive[i] in tags {
        filtered := false;
      }
    }
    assert filter.positive[..|filter.positive|] == filter.positive;
    if filtered {
      return true;
    }
    for i := 0 to |filter.negative|
      invariant filtered <==> exists part :: part in filter.negative[..i] && part in tags
    {
      if filter.negative[i] in tags {
        filtered := true;
      }
    }
    assert filter.negative[..|filter.negative|] == filter.negative;
  }

  /* ---- What stays ---- */

  /** a is a folder on the way to p. */
  predicate Ancestor(a: string, p: string) { |a| < |p| && p[|a|] == '/' && p[..|a|] == a }

  function Parents(p: string): set<string> { set i | 0 <= i < |p| && p[i] == '/' :: p[..i] }

  ghost predicate StaysFile(filter: Filter, files: map<string, Desc>, p: string) { p in files && !Filtered(filter, files[p]) }

  /** A listed folder stays when it is wanted or on the way to a listed folder that is wanted. */
  ghost predicate StaysFolder(filter: Filter, folders: map<string, Desc>, p: string) {
    && p in folders
    && (!Filtered(filter, folders[p]) || exists q :: q in folders && !Filtered(filter, folders[q]) && Ancestor(p, q))
  }

  /** What stays is closed under listed ancestors, and no smaller closed set keeps the wanted folders. */
  lemma FoldersAreClosedAndMinimal(filter: Filter, folders: map<string, Desc>, kept: set<string>, other: set<string>)
    requires forall p :: p in kept <==> StaysFolder(filter, folders, p)
    requires forall p :: p in folders && !Filtered(filter, folders[p]) ==> p in other
    requires forall a, p :: p in other && a in folders && Ancestor(a, p) ==> a in other
    ensures forall a, p :: p in kept && a in folders && Ancestor(a, p) ==> a in kept
    ensures kept <= other
  {
  }

  function ZipIdOf(desc: Desc): Option<string> {
    if "zip_id" in desc && desc["zip_id"].Text? then Some(desc["zip_id"].text) else None
  }

  function HeldBy(zips: map<string, Paths>, zipId: string): Paths { if zipId in zips then zips[zipId] else NoPaths }

  /** The dropped entries lie under their own zip, and nowhere else. */
  ghost predicate SetAside(zips: map<string, Paths>, kind: Kind, dropped: map<string, Desc>) {
    forall z, p ::
      && (p in HeldBy(zips, z).Of(kind) <==> p in dropped && ZipIdOf(dropped[p]) == Some(z))
      && (p in HeldBy(zips, z).Of(kind) ==> HeldBy(zips, z).Of(kind)[p] == dropped[p])
  }

  method AddFiltered(zips: map<string, Paths>, kind: Kind, path: string, desc: Desc) returns (r: map<string, Paths>)
    requires ZipIdOf(desc).Some?
    ensures var z := ZipIdOf(desc).value;
            r == zips[z := HeldBy(zips, z).With(kind, HeldBy(zips, z).Of(kind)[path := desc])]
  {
    var z := desc["zip_id"].text;
    r := zips;
    if z !in r {
      r := r[z := NoPaths];
    }
    r := r[z := r[z].With(kind, r[z].Of(kind)[path := desc])];
  }

  lemma LongestExists(paths: set<string>)
    requires paths != {}
    ensures exists p :: p in paths && forall q :: q in paths ==> |q| <= |p|
    decreases |paths|
  {
    var x :| x in paths;
    if paths != {x} {
      var rest := paths - {x};
      assert |rest| < |paths|;
      assert paths == rest + {x};
      LongestExists(rest);
      var p :| p in rest && forall q :: q in rest ==> |q| <= |p|;
      assert forall q :: q in paths ==> |q| <= if |x| > |p| then |x| else |p|;
    }
  }

  function Restrict(m: map<string, Desc>, keys: set<string>): map<string, Desc> { map p | p in m && p in keys :: m[p] }

  /** Takes the filtered files out, in place. */
  method DropFiles(filter: Filter, files: map<string, Desc>) returns (kept: map<string, Desc>, zips: map<string, Paths>)
    ensures kept == Restrict(files, set p | p in files && !Filtered(filter, files[p]))
    ensures SetAside(zips, Files, files - kept.Keys) && SetAside(zips, Folders, map[])
  {
    kept, zips := files, map[];
    var rest := files.Keys;
    while rest != {}
      invariant rest <= files.Keys && rest <= kept.Keys
      invariant forall p :: p in kept <==> p in files && (p in rest || !Filtered(filter, files[p]))
      invariant forall p :: p in kept ==> kept[p] == files[p]
      invariant SetAside(zips, Files, files - kept.Keys) && SetAside(zips, Folders, map[])
      decreases rest
    {
      var p :| p in rest;
      var filtered := IsFiltered(filter, files[p]);
      if filtered {
        kept, zips := DropEntry(files, kept, zips, Files, p, map[]);
      }
      rest := rest - {p};
    }
    assert kept == Restrict(files, set p | p in files && !Filtered(filter, files[p]));
  }

  lemma AsideOneMore(zips: map<string, Paths>, t: map<string, Paths>, kind: Kind, dropped: map<string, Desc>, p: string, desc: Desc)
    requires SetAside(zips, kind, dropped) && p !in dropped
    requires t == if ZipIdOf(desc).None? then zips
                  else var z := ZipIdOf(desc).value;
                       zips[z := HeldBy(zips, z).With(kind, HeldBy(zips, z).Of(kind)[p := desc])]
    ensures SetAside(t, kind, dropped[p := desc])
    ensures forall other: Kind, z: string :: other != kind ==> HeldBy(t, z).Of(other) == HeldBy(zips, z).Of(other)
  {
    forall z, q
      ensures q in HeldBy(t, z).Of(kind) <==> q in dropped[p := desc] && ZipIdOf(dropped[p := desc][q]) == Some(z)
      ensures q in HeldBy(t, z).Of(kind) ==> HeldBy(t, z).Of(kind)[q] == dropped[p := desc][q]
    {
      assert q in HeldBy(zips, z).Of(kind) <==> q in dropped && ZipIdOf(dropped[q]) == Some(z);
    }
  }

  /** Pops an entry, keeping it aside under its zip if it has one. */
  method DropEntry(all: map<string, Desc>, kept: map<string, Desc>, zips: map<string, Paths>, kind: Kind, p: string, ghost others: map<string, Desc>)
    returns (left: map<string, Desc>, aside: map<string, Paths>)
    requires p in kept && p in all && kept[p] == all[p]
    requires SetAside(zips, kind, all - kept.Keys) && SetAside(zips, if kind.Files? then Folders else Files, others)
    ensures left == kept - {p}
    ensures SetAside(aside, kind, all - left.Keys) && SetAside(aside, if kind.Files? then Folders else Files, others)
  {
    aside := zips;
    if "zip_id" in all[p] && all[p]["zip_id"].Text? {
      aside := AddFiltered(zips, kind, p, all[p]);
    }
    left := kept - {p};
    AsideOneMore(zips, aside, kind, all - kept.Keys, p, all[p]);
    assert all - left.Keys == (all - kept.Keys)[p := all[p]];
  }

  method PickLongest(paths: set<string>) returns (p: string)
    requires paths != {}
    ensures p in paths && forall q :: q in paths ==> |q| <= |p|
  {
    LongestExists(paths);
    p :| p in paths && forall q :: q in paths ==> |q| <= |p|;
  }

  /** Takes the filtered folders out, the longest paths first, sparing the ancestors of what stays. */
  method DropFolders(filter: Filter, folders: map<string, Desc>, aside: map<string, Paths>, ghost files: map<string, Desc>)
    returns (kept: map<string, Desc>, zips: map<string, Paths>)
    requires SetAside(aside, Files, files) && SetAside(aside, Folders, map[])
    ensures forall p :: p in kept <==> StaysFolder(filter, folders, p)
    ensures forall p :: p in kept ==> p in folders && kept[p] == folders[p]
    ensures SetAside(zips, Files, files) && SetAside(zips, Folders, folders - kept.Keys)
  {
    kept, zips := folders, aside;
    var keepFolders: set<string> := {};
    var rest := folders.Keys;
    assert folders - kept.Keys == map[];
    while rest != {}
      invariant rest <= folders.Keys
      invariant forall p, q :: p in rest && q in folders.Keys - rest ==> |p| <= |q|
      invariant forall a :: a in keepFolders <==> KeptFor(filter, folders, folders.Keys - rest, a)
      invariant forall p :: p in kept <==> p in folders && (p in rest || StaysFolder(filter, folders, p))
      invariant forall p :: p in kept ==> kept[p] == folders[p]
      invariant SetAside(zips, Files, files) && SetAside(zips, Folders, folders - kept.Keys)
      decreases rest
    {
      var p := PickLongest(rest);
      StaysIffKept(filter, folders, folders.Keys - rest, p);
      KeptGrows(filter, folders, rest, p, keepFolders);
      if p !in keepFolders {
        var filtered := IsFiltered(filter, folders[p]);
        if filtered {
          kept, zips := DropEntry(folders, kept, zips, Folders, p, files);
        } else {
          keepFolders := keepFolders + Parents(p);
        }
      }
      rest := rest - {p};
    }
  }

  lemma KeptGrows(filter: Filter, folders: map<string, Desc>, rest: set<string>, p: string, keep: set<string>)
    requires rest <= folders.Keys && p in rest
    requires forall a :: a in keep <==> KeptFor(filter, folders, folders.Keys - rest, a)
    ensures var later := if p in keep || Filtered(filter, folders[p]) then keep else keep + Parents(p);
            forall a :: a in later <==> KeptFor(filter, folders, folders.Keys - (rest - {p}), a)
  {
  }

  /** a is on the way to some wanted folder among those seen. */
  ghost predicate KeptFor(filter: Filter, folders: map<string, Desc>, seen: set<string>, a: string)
    requires seen <= folders.Keys
  {
    exists q :: q in seen && !Filtered(filter, folders[q]) && Ancestor(a, q)
  }

  /** With everything longer seen, a folder stays exactly when it is wanted or already kept. */
  lemma StaysIffKept(filter: Filter, folders: map<string, Desc>, seen: set<string>, p: string)
    requires seen <= folders.Keys && p in folders && forall q :: q in folders && q !in seen ==> |q| <= |p|
    ensures StaysFolder(filter, folders, p) <==> !Filtered(filter, folders[p]) || KeptFor(filter, folders, seen, p)
  {
  }

  /** Exactly what stays, as it is, and everything dropped under its zip. */
  ghost predicate Selects(filter: Option<Filter>, index: Paths, kept: Paths, zips: map<string, Paths>) {
    && (filter.None? ==> kept == index && zips == map[])
    && (filter.Some? ==>
          && (forall p :: p in kept.files <==> StaysFile(filter.value, index.files, p))
          && (forall p :: p in kept.folders <==> StaysFolder(filter.value, index.folders, p)))
    && (forall kind, p :: p in kept.Of(kind) ==> p in index.Of(kind) && kept.Of(kind)[p] == index.Of(kind)[p])
    && (forall kind :: SetAside(zips, kind, index.Of(kind) - kept.Of(kind).Keys))
  }

  /** Both parts. The index itself is left with what is kept: its dictionaries lose the other entries. */
  method SelectFilteredFiles(filter: Option<Filter>, index: Paths) returns (kept: Paths, zips: map<string, Paths>)
    ensures Selects(filter, index, kept, zips)
    ensures filter.Some? ==> forall p :: p in kept.files <==> p in index.files && IsWanted(filter.value, index.files[p])
    ensures filter.Some? ==>
              forall p :: p in kept.folders <==>
                p in index.folders
                && (IsWanted(filter.value, index.folders[p])
                    || exists q, rest :: q in index.folders && IsWanted(filter.value, index.folders[q]) && q == p + "/" + rest)
  {
    if filter.None? {
      NothingSelected(index);
      kept, zips := index, map[];
      return;
    }
    var files, aside := DropFiles(filter.value, index.files);
    var folders;
    folders, zips := DropFolders(filter.value, index.folders, aside, index.files - files.Keys);
    kept := Paths(files, folders);
    PartsSelect(filter.value, index, files, folders, zips);
    SelectedIsWanted(filter.value, index, kept);
  }

  /** Some wanted term is met, if there are any, and no unwanted one is. */
  predicate IsWanted(filter: Filter, desc: Desc) {
    && (filter.positive == [] || exists part :: part in filter.positive && part in TagsOf(desc))
    && forall part :: part in filter.negative ==> part !in TagsOf(desc)
  }

  lemma WantedIff(filter: Filter, desc: Desc)
    ensures IsWanted(filter, desc) <==> !Filtered(filter, desc)
  {
  }

  lemma AncestorIff(a: string, p: string)
    ensures Ancestor(a, p) <==> exists rest :: p == a + "/" + rest
  {
    if Ancestor(a, p) {
      assert p == a + "/" + p[|a| + 1..];
    }
  }

  lemma SelectedIsWanted(filter: Filter, index: Paths, kept: Paths)
    requires forall p :: p in kept.files <==> StaysFile(filter, index.files, p)
    requires forall p :: p in kept.folders <==> StaysFolder(filter, index.folders, p)
    ensures forall p :: p in kept.files <==> p in index.files && IsWanted(filter, index.files[p])
    ensures forall p :: p in kept.folders <==>
              p in index.folders
              && (IsWanted(filter, index.folders[p])
                  || exists q, rest :: q in index.folders && IsWanted(filter, index.folders[q]) && q == p + "/" + rest)
  {
    forall p | p in index.files ensures IsWanted(filter, index.files[p]) <==> !Filtered(filter, index.files[p]) { WantedIff(filter, index.files[p]); }
    forall q | q in index.folders
      ensures IsWanted(filter, index.folders[q]) <==> !Filtered(filter, index.folders[q])
    {
      WantedIff(filter, index.folders[q]);
    }
    forall p, q | q in index.folders
      ensures Ancestor(p, q) <==> exists rest :: q == p + "/" + rest
    {
      AncestorIff(p, q);
    }
  }

  lemma NothingSelected(index: Paths)
    ensures Selects(None, index, index, map[])
  {
    forall kind: Kind ensures index.Of(kind) - index.Of(kind).Keys == map[] {}
  }

  lemma PartsSelect(filter: Filter, index: Paths, files: map<string, Desc>, folders: map<string, Desc>, zips: map<string, Paths>)
    requires files == Restrict(index.files, set p | p in index.files && !Filtered(filter, index.files[p]))
    requires forall p :: p in folders <==> StaysFolder(filter, index.folders, p)
    requires forall p :: p in folders ==> p in index.folders && folders[p] == index.folders[p]
    requires SetAside(zips, Files, index.files - files.Keys) && SetAside(zips, Folders, index.folders - folders.Keys)
    ensures Selects(Some(filter), index, Paths(files, folders), zips)
  {
    var kept := Paths(files, folders);
    forall kind: Kind, p | p in kept.Of(kind)
      ensures p in index.Of(kind) && kept.Of(kind)[p] == index.Of(kind)[p]
    {
      PartKept(filter, index, kept, kind, p);
    }
    forall kind: Kind
      ensures SetAside(zips, kind, index.Of(kind) - kept.Of(kind).Keys)
    {
      if kind.Files? {
        assert index.Of(kind) - kept.Of(kind).Keys == index.files - files.Keys;
      }
    }
  }

  lemma PartKept(filter: Filter, index: Paths, kept: Paths, kind: Kind, p: string)
    requires kept.files == Restrict(index.files, set q | q in index.files && !Filtered(filter, index.files[q]))
    requires forall q :: q in kept.folders ==> q in index.folders && kept.folders[q] == index.folders[q]
    requires p in kept.Of(kind)
    ensures p in index.Of(kind) && kept.Of(kind)[p] == index.Of(kind)[p]
  {
  }
}
