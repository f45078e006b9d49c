/** Reserving space before downloading (src/downloader/free_space_reservation.py). */
module Space {
  type Path = string

  /** Available, minimum, block size and reserved space, all in bytes. */
  datatype Partition = Partition(available: int, min: int, block: nat, reserved: int) {
    function Remaining(): int { available - reserved }
  }

  /** A file and the partition it goes to. */
  datatype File = File(partition: Path, size: nat)

  /** The size in whole blocks. */
  function FileSizeOnDisk(size: nat, block: nat): (r: nat)
    requires block > 0
    ensures r % block == 0 && size <= r < size + block
    ensures forall k: nat :: k % block == 0 && size <= k ==> r <= k
  {
    var r := if size % block == 0 then size else (size / block + 1) * block;
    RoundedUp(size, block);
    r
  }

  lemma RoundedUp(size: nat, block: nat)
    requires block > 0
    ensures var r := if size % block == 0 then size else (size / block + 1) * block;
            && r % block == 0 && size <= r < size + block
            && (forall k: nat :: k % block == 0 && size <= k ==> r <= k)
  {
    var r, q := if size % block == 0 then size else (size / block + 1) * block, size / block;
    assert size == q * block + size % block;
    assert (q + 1) * block == q * block + block;
    MultipleOf(q + 1, block);
    forall k: nat | k % block == 0 && size <= k
      ensures r <= k
    {
      if size % block != 0 {
        var n := k / block;
        assert k == n * block;
        if n <= q {
          MonotoneTimes(n, q, block);
        } else {
          MonotoneTimes(q + 1, n, block);
        }
      }
    }
  }

  lemma {:induction false} MultipleOf(n: nat, block: nat)
    requires block > 0
    ensures (n * block) % block == 0
  {
    if n > 0 {
      MultipleOf(n - 1, block);
      assert n * block == (n - 1) * block + block;
      AddBlock((n - 1) * block, block);
    }
  }

  lemma AddBlock(x: nat, block: nat)
    requires block > 0 && x % block == 0
    ensures (x + block) % block == 0
  {
    var q := x / block;
    assert x + block == block * (q + 1);
    DivUnique(x + block, block, q + 1);
  }

  lemma DivUnique(x: nat, block: nat, q: nat)
    requires block > 0 && x == block * q
    ensures x % block == 0
  {
    var d, m := x / block, x % block;
    assert x == block * d + m;
    assert (d + 1) * block == d * block + block && (q + 1) * block == q * block + block;
    if d < q {
      MonotoneTimes(d + 1, q, block);
    } else if d > q {
      MonotoneTimes(q + 1, d, block);
    }
  }

  lemma MonotoneTimes(a: nat, b: nat, block: nat)
    requires a <= b
    ensures a * block <= b * block
  {
  }

  /** What the files of a batch need on one partition. */
  function Needed(files: seq<File>, path: Path, block: nat): nat
    requires block > 0
  {
    if files == [] then 0
    else (if files[0].partition == path then FileSizeOnDisk(files[0].size, block) else 0) + Needed(files[1..], path, block)
  }

  lemma {:induction false} NeededAppend(files: seq<File>, more: seq<File>, path: Path, block: nat)
    requires block > 0
    ensures Needed(files + more, path, block) == Needed(files, path, block) + Needed(more, path, block)
  {
    if files == [] {
      assert files + more == more;
    } else {
      assert (files + more)[1..] == files[1..] + more;
      NeededAppend(files[1..], more, path, block);
    }
  }

  lemma NeededPush(files: seq<File>, f: File, path: Path, block: nat)
    requires block > 0
    ensures Needed(files + [f], path, block)
         == Needed(files, path, block) + if path == f.partition then FileSizeOnDisk(f.size, block) else 0
  {
    NeededAppend(files, [f], path, block);
    assert [f][1..] == [];
  }

  function Touched(files: seq<File>): set<Path> { set f | f in files :: f.partition }

  ghost predicate WellFormed(ps: map<Path, Partition>) { forall p :: p in ps ==> ps[p].block > 0 }

  /** The batch leaves more than the minimum on every partition it touches. */
  ghost predicate Fits(ps: map<Path, Partition>, files: seq<File>)
    requires WellFormed(ps) && Touched(files) <= ps.Keys
  {
    forall p :: p in Touched(files) ==> ps[p].Remaining() - Needed(files, p, ps[p].block) > ps[p].min
  }

  ghost function Reserve(ps: map<Path, Partition>, files: seq<File>): map<Path, Partition>
    requires WellFormed(ps) && Touched(files) <= ps.Keys
  {
    if Fits(ps, files) then map p | p in ps :: ps[p].(reserved := ps[p].reserved + Needed(files, p, ps[p].block)) else ps
  }

  /** The files of the accepted batches, one after the other. */
  ghost function Accepted(ps: map<Path, Partition>, batches: seq<seq<File>>): seq<File>
    requires WellFormed(ps) && forall b :: b in batches ==> Touched(b) <= ps.Keys
    decreases |batches|
  {
    if batches == [] then []
    else (if Fits(ps, batches[0]) then batches[0] else []) + Accepted(Reserve(ps, batches[0]), batches[1..])
  }

  ghost function ReserveAll(ps: map<Path, Partition>, batches: seq<seq<File>>): map<Path, Partition>
    requires WellFormed(ps) && forall b :: b in batches ==> Touched(b) <= ps.Keys
    decreases |batches|
  {
    if batches == [] then ps else ReserveAll(Reserve(ps, batches[0]), batches[1..])
  }

  lemma {:induction false} UntouchedNeedsNothing(files: seq<File>, path: Path, block: nat)
    requires block > 0 && path !in Touched(files)
    ensures Needed(files, path, block) == 0
  {
    if files != [] {
      assert files[0].partition in Touched(files);
      assert forall f :: f in files[1..] ==> f in files;
      UntouchedNeedsNothing(files[1..], path, block);
    }
  }

  /**
   Over any sequence of batches: a partition has reserved exactly the accepted sizes in whole
   blocks, and one that received a file keeps strictly more than its minimum.
   */
  lemma {:induction false} ReservationsAreExact(ps: map<Path, Partition>, batches: seq<seq<File>>, path: Path)
    requires WellFormed(ps) && (forall b :: b in batches ==> Touched(b) <= ps.Keys) && path in ps
    ensures var t, files := ReserveAll(ps, batches), Accepted(ps, batches);
            && t.Keys == ps.Keys
            && t[path] == ps[path].(reserved := ps[path].reserved + Needed(files, path, ps[path].block))
            && (path in Touched(files) ==> t[path].Remaining() > t[path].min)
            && (path !in Touched(files) ==> t[path] == ps[path])
    decreases |batches|
  {
    if batches != [] {
      var u := Reserve(ps, batches[0]);
      assert batches[0] in batches;
      ReservationsAreExact(u, batches[1..], path);
      var first := if Fits(ps, batches[0]) then batches[0] else [];
      var rest := Accepted(u, batches[1..]);
      NeededAppend(first, rest, path, ps[path].block);
      assert Touched(first + rest) == Touched(first) + Touched(rest);
      if path !in Touched(first) {
        UntouchedNeedsNothing(first, path, ps[path].block);
      }
      if path !in Touched(rest) {
        UntouchedNeedsNothing(rest, path, ps[path].block);
      }
    }
  }

  class FreeSpaceReservation {
    var partitions: map<Path, Partition>

    /** All or nothing: a batch that would fill some partition changes no reservation. */
    method ReserveSpaceForFilePkgs(files: seq<File>) returns (fits: bool, full: set<Path>)
      requires WellFormed(partitions) && Touched(files) <= partitions.Keys
      modifies this
      ensures fits <==> Fits(old(partitions), files)
      ensures partitions == Reserve(old(partitions), files)
      ensures fits <==> full == {}
      ensures partitions.Keys == old(partitions).Keys
      ensures forall p :: p in partitions ==>
                var was := old(partitions)[p];
                partitions[p] == if fits then was.(reserved := was.reserved + Needed(files, p, was.block)) else was
      ensures forall p :: p in full <==>
                p in Touched(files)
                && old(partitions)[p].Remaining() - Needed(files, p, old(partitions)[p].block) <= old(partitions)[p].min
    {
      var reservations := SumUp(files);
      full := {};
      var rest := reservations.Keys;
      while rest != {}
        invariant rest <= reservations.Keys && partitions == old(partitions)
        invariant forall p :: p in full <==>
                    p in reservations.Keys - rest && partitions[p].Remaining() - reservations[p] <= partitions[p].min
        decreases rest
      {
        var p :| p in rest;
        if partitions[p].available - partitions[p].reserved - reservations[p] <= partitions[p].min {
          full := full + {p};
        }
        rest := rest - {p};
      }
      if |full| > 0 {
        assert exists p :: p in full;
        return false, full;
      }
      fits := true;
      var was := partitions;
      rest := reservations.Keys;
      while rest != {}
        invariant rest <= reservations.Keys && partitions.Keys == was.Keys
        invariant forall p :: p in was ==>
                    partitions[p] == if p in reservations.Keys - rest then was[p].(reserved := was[p].reserved + reservations[p]) else was[p]
        decreases rest
      {
        var p :| p in rest;
        partitions := partitions[p := partitions[p].(reserved := partitions[p].reserved + reservations[p])];
        rest := rest - {p};
      }
      forall p | p in was && p !in reservations
        ensures Needed(files, p, was[p].block) == 0
      {
        UntouchedNeedsNothing(files, p, was[p].block);
      }
    }

    method SumUp(files: seq<File>) returns (reservations: map<Path, nat>)
      requires WellFormed(partitions) && Touched(files) <= partitions.Keys
      ensures SumsUp(partitions, files, reservations)
    {
      reservations := map[];
      for i := 0 to |files|
        invariant Touched(files[..i]) <= partitions.Keys && SumsUp(partitions, files[..i], reservations)
      {
        var f := files[i];
        assert files[..i + 1] == files[..i] + [f];
        assert f in files && f.partition in Touched(files);
        var size := FileSizeOnDisk(f.size, partitions[f.partition].block);
        SumsUpPush(partitions, files[..i], f, reservations);
        reservations := reservations[f.partition := (if f.partition in reservations then reservations[f.partition] else 0) + size];
      }
      assert files[..|files|] == files;
    }
  }

  /** What each touched partition needs. */
  ghost predicate SumsUp(ps: map<Path, Partition>, files: seq<File>, reservations: map<Path, nat>)
    requires WellFormed(ps) && Touched(files) <= ps.Keys
  {
    && reservations.Keys == Touched(files)
    && (forall p :: p in reservations ==> reservations[p] == Needed(files, p, ps[p].block))
  }

  lemma SumsUpPush(ps: map<Path, Partition>, files: seq<File>, f: File, reservations: map<Path, nat>)
    requires WellFormed(ps) && Touched(files) <= ps.Keys && f.partition in ps && SumsUp(ps, files, reservations)
    ensures Touched(files + [f]) <= ps.Keys
    ensures var n := (if f.partition in reservations then reservations[f.partition] else 0) + FileSizeOnDisk(f.size, ps[f.partition].block);
            SumsUp(ps, files + [f], reservations[f.partition := n])
  {
    assert Touched(files + [f]) == Touched(files) + {f.partition};
    forall p | p in Touched(files + [f]) { NeededPush(files, f, p, ps[p].block); }
    if f.partition !in reservations {
      UntouchedNeedsNothing(files, f.partition, ps[f.partition].block);
    }
  }
}
