/**
 What an install can do to the files on disk: when a target survives a stop at any moment, and
 which files of a line can lose their content.
 */
module InstallSafety {
  import opened Prelude
  import opened IndexFiles
  import opened Install

  /** A download is told the truth: the target exists exactly when it was on disk. */
  predicate Proper(x: Line, first: Disk) { x.File? && x.way.Download? ==> (x.way.there <==> x.p.full in first) }

  ghost predicate Fit(x: Line, first: Disk) { x.File? && OwnPathsDiffer(x.p) && Proper(x, first) }

  function Temp(p: Pkg): string { TempPath(p, true).value }

  predicate Kept(first: Disk, d: Disk, f: string) { Lookup(d, f) == Lookup(first, f) }

  predicate InBackup(p: Pkg, d: Disk) { p.backup.Some? && p.backup.value in d }

  predicate Holds(p: Pkg, d: Disk, f: string) { Lookup(d, f) == Some(p.hash) }

  /* ---- The conditions ---- */

  /** The archive has the declared content for the file. */
  predicate Gets(x: Line)
    requires x.File?
  {
    x.member == Some(x.p.hash)
  }

  /** The archive has nothing for the file, but its temporary path has the declared content from before. */
  predicate Leftover(x: Line, first: Disk)
    requires x.File?
  {
    x.member.None? && x.way.PerFile? && (x.p.full in first || x.p.tmp.Some?) && Holds(x.p, first, Temp(x.p))
  }

  /** The extraction writes the target itself. */
  predicate InPlace(x: Line, first: Disk)
    requires x.File?
  {
    match x.way
    case Download(there) => TempPath(x.p, there).None?
    case PerFile => x.p.tmp.None? && x.p.full !in first && x.member.Some?
    case Whole => x.member.Some?
  }

  /** The extraction can come out wrong, and the file is then downloaded. */
  predicate Recovers(x: Line, first: Disk)
    requires x.File?
  {
    x.source.FromUrl? &&
    match x.way
    case Download(_) => false
    case PerFile => !Gets(x)
    case Whole => (if x.member.Some? then x.member else Lookup(first, x.p.full)) != Some(x.p.hash)
  }

  /** The extraction can be given up without a target on disk. */
  predicate EndsAbsent(x: Line, first: Disk)
    requires x.File?
  {
    && x.source.NoUrl? && x.p.full !in first && !x.way.Download? && !Gets(x) && !Leftover(x, first)
    && (x.member.None? || (x.way.PerFile? && x.p.tmp.Some?))
  }

  /** And then the temporary path becomes the target. */
  predicate Restores(x: Line, first: Disk)
    requires x.File?
  {
    EndsAbsent(x, first) && (x.p.backup.Some? || x.p.tmp.Some?) && !InBackup(x.p, first) && Holds(x.p, first, Temp(x.p))
  }

  /** When a target that is on disk can get another content. */
  predicate MayReplace(x: Line, first: Disk)
    requires x.File?
  {
    match x.way
    case Download(_) => !Holds(x.p, first, x.p.full)
    case PerFile =>
      || (!Holds(x.p, first, x.p.full) && (Gets(x) || Leftover(x, first) || x.source.FromUrl?))
      || (Recovers(x, first) && x.p.tmp.None?)
    case Whole => x.member.Some? || Recovers(x, first)
  }

  /** When the backup path can be written. */
  predicate MayCopy(x: Line, first: Disk)
    requires x.File?
  {
    match x.way
    case Download(there) => there || x.p.tmp.None?
    case PerFile =>
      if x.p.full in first then Gets(x) || Leftover(x, first) || x.source.FromUrl?
      else Gets(x) || (x.source.FromUrl? && (x.p.tmp.None? || Leftover(x, first)))
    case Whole => Recovers(x, first) && (x.p.full in first || x.member.Some? || x.p.tmp.None?)
  }

  /** When the temporary path can be written, moved or removed. */
  predicate MayUseTemp(x: Line, first: Disk)
    requires x.File?
  {
    || Restores(x, first)
    || match x.way
       case Download(there) => there || x.p.tmp.Some?
       case PerFile => x.p.tmp.Some? || x.p.full in first || x.member.Some?
       case Whole => Recovers(x, first) && x.p.tmp.Some?
  }

  /** When a file of the line, which is on disk, can get another content or disappear. */
  predicate MayTouch(x: Line, first: Disk, f: string) {
    if x.Rest? then f in x.dump
    else
      || (f == x.p.full && MayReplace(x, first))
      || (x.p.backup == Some(f) && (MayCopy(x, first) || EndsAbsent(x, first)))
      || (f == Temp(x.p) && MayUseTemp(x, first))
  }

  /** The old content, the declared one, or, for a target that was not there, its backup. */
  predicate TargetSafe(p: Pkg, first: Disk, d: Disk) {
    || Kept(first, d, p.full) || Holds(p, d, p.full)
    || (p.full !in first && InBackup(p, first) && Lookup(d, p.full) == Lookup(first, p.backup.value))
  }

  predicate Safe(x: Line, first: Disk)
    requires x.File?
  {
    !InPlace(x, first) && !(Recovers(x, first) && x.p.tmp.None?)
  }

  /** A replaced target left its old content in its backup. */
  predicate BackedUp(p: Pkg, first: Disk, d: Disk) {
    p.backup.Some? && p.full in first ==> Lookup(d, p.backup.value) == Lookup(first, p.full)
  }

  /* ---- What every run keeps ---- */

  predicate Replacing(stage: Stage) { stage.CopyingLast? || stage.Moving? }

  /** Up to the end, nothing is replaced that is not backed up. */
  predicate Backs(x: Line, first: Disk, d: Disk, s: Spot)
    requires x.File?
  {
    && (s.stage.Moving? ==> BackedUp(x.p, first, d))
    && (Kept(first, d, x.p.full) || (s.stage.Done? && BackedUp(x.p, first, d)))
  }

  predicate Downloading(x: Line, first: Disk, d: Disk, s: Spot)
    requires x.File? && x.way.Download?
  {
    var p, there := x.p, x.way.there;
    && !s.recovering && !s.again && (s.stage.Start? || s.there == there) && (s.stage.GivenUp? && s.stage.rescue ==> there)
    && (p.tmp.Some? || !there ==> Kept(first, d, Beside(p)))
    && if TempPath(p, there).None? then !Replacing(s.stage)
       else
         && !s.stage.CopyingFirst? && (Replacing(s.stage) ==> Holds(p, d, Temp(p)))
         && (Kept(first, d, p.full) || (Holds(p, d, p.full) && s.stage.Done?))
         && Backs(x, first, d, s) && (p.full !in first && p.backup.Some? ==> Kept(first, d, p.backup.value))
  }

  /** Before the recovery, taking the file out of the archive alone. */
  predicate Unzipping(x: Line, first: Disk, d: Disk, s: Spot)
    requires x.File? && x.way.PerFile?
  {
    var p, good := x.p, Gets(x) || Leftover(x, first);
    && !s.recovering && !s.stage.CopyingFirst?
    && (Replacing(s.stage) ==> good && Holds(p, d, Temp(p)) && InstallPath(x, s) == Temp(p))
    && (s.stage.Checking? && x.member.Some? ==> Lookup(d, InstallPath(x, s)) == x.member)
    && (s.there && !s.stage.Start? ==> p.full in d) && (p.full in first && !s.stage.Start? ==> s.there)
    && (p.full in first ==> p.full in d && (s.again || Backs(x, first, d, s)))
    && (p.full in first || p.tmp.Some? ==> Kept(first, d, p.full) || (good && Holds(p, d, p.full)))
    && (p.backup.Some? && !Gets(x) && !(p.full in first && good) ==> Kept(first, d, p.backup.value))
    && (p.tmp.Some? ==> Kept(first, d, Beside(p)))
    && (x.member.None? ==> UnzippingNothing(x, first, d, s))
    && (s.stage.GivenUp? && s.stage.rescue ==> GivesUp(x, first, d))
  }

  predicate GivesUp(x: Line, first: Disk, d: Disk)
    requires x.File?
  {
    x.source.NoUrl? && (x.p.full !in d ==> EndsAbsent(x, first) && !(x.p.tmp.Some? && x.way.PerFile? && Holds(x.p, d, Temp(x.p))))
  }

  /** The archive has nothing for the file. */
  predicate UnzippingNothing(x: Line, first: Disk, d: Disk, s: Spot)
    requires x.File?
  {
    var p := x.p;
    if p.full in first || p.tmp.Some? then
      && (Kept(first, d, Temp(p)) || Temp(p) !in d)
      && (Leftover(x, first) && p.full !in first ==> (p.full in d <==> Temp(p) !in d))
    else Kept(first, d, p.full) && Kept(first, d, Beside(p)) && (s.stage.Start? || !s.there)
  }

  /** Before the recovery, with everything else in the archive. */
  predicate Dumping(x: Line, first: Disk, d: Disk, s: Spot)
    requires x.File?
  {
    var p := x.p;
    && !s.recovering && !s.stage.CopyingFirst? && !Replacing(s.stage)
    && (x.member.None? ==> Kept(first, d, p.full)) && (s.stage.Checking? && x.member.Some? ==> Lookup(d, p.full) == x.member)
    && (p.full in first ==> p.full in d)
    && (p.backup.Some? ==> Kept(first, d, p.backup.value)) && Kept(first, d, Temp(p)) && Kept(first, d, Beside(p))
    && (s.stage.GivenUp? && s.stage.rescue ==> GivesUp(x, first, d))
  }

  /** The download after an extraction. */
  predicate Recovering(x: Line, first: Disk, d: Disk, s: Spot)
    requires x.File?
  {
    var p := x.p;
    && s.recovering && Recovers(x, first) && (s.stage.Start? || !s.there) && (s.stage.GivenUp? ==> !s.stage.rescue)
    && if p.tmp.Some? then
         && !s.stage.CopyingFirst? && (Replacing(s.stage) ==> Holds(p, d, Temp(p))) && Kept(first, d, Beside(p))
         && (!InPlace(x, first) ==> Kept(first, d, p.full) || Holds(p, d, p.full))
         && (!InPlace(x, first) && p.full in first ==> s.again || Backs(x, first, d, s))
         && (!InPlace(x, first) && p.full !in first && !Leftover(x, first) ==>
               (p.full in d ==> s.stage.Done?) && (p.backup.Some? ==> Kept(first, d, p.backup.value)))
       else
         && !Replacing(s.stage)
         && (x.way.Whole? || (p.full !in first && x.member.None?) ==> Kept(first, d, Beside(p)))
  }

  /** After the importer's last resort. */
  predicate Rescuing(x: Line, first: Disk, d: Disk, s: Spot)
    requires x.File?
  {
    var p := x.p;
    && !s.recovering && s.stage == GivenUp(false) && EndsAbsent(x, first) && TargetSafe(p, first, d)
    && (p.tmp.Some? ==> Kept(first, d, Beside(p)))
    && (p.tmp.None? || x.way.Whole? ==> Kept(first, d, Temp(p)) || Restores(x, first))
  }

  predicate Keeps(x: Line, first: Disk, d: Disk, s: Spot)
    requires x.File?
  {
    match x.way
    case Download(_) => Downloading(x, first, d, s)
    case PerFile => Unzipping(x, first, d, s) || Recovering(x, first, d, s) || Rescuing(x, first, d, s)
    case Whole => Dumping(x, first, d, s) || Recovering(x, first, d, s) || Rescuing(x, first, d, s)
  }

  lemma DownloadInstalls(x: Line, first: Disk, d: Disk, s: Spot, turn: Turn)
    requires Fit(x, first) && x.way.Download? && Downloading(x, first, d, s)
    requires Replacing(s.stage)
    ensures var r := StepOf(x, d, s, turn); Downloading(x, first, r.0, r.1)
  {
  }

  lemma DownloadStep(x: Line, first: Disk, d: Disk, s: Spot, turn: Turn)
    requires Fit(x, first) && x.way.Download? && Downloading(x, first, d, s)
    requires !Replacing(s.stage)
    ensures var r := StepOf(x, d, s, turn); Downloading(x, first, r.0, r.1)
  {
  }

  lemma RecoveryInstalls(x: Line, first: Disk, d: Disk, s: Spot, turn: Turn)
    requires Fit(x, first) && !x.way.Download? && Recovering(x, first, d, s)
    requires Replacing(s.stage)
    ensures var r := StepOf(x, d, s, turn); Recovering(x, first, r.0, r.1)
  {
  }

  lemma RecoveryChecks(x: Line, first: Disk, d: Disk, s: Spot, turn: Turn)
    requires Fit(x, first) && !x.way.Download? && Recovering(x, first, d, s)
    requires s.stage.Checking?
    ensures var r := StepOf(x, d, s, turn); Recovering(x, first, r.0, r.1)
  {
  }

  lemma RecoveryWrites(x: Line, first: Disk, d: Disk, s: Spot, turn: Turn)
    requires Fit(x, first) && !x.way.Download? && Recovering(x, first, d, s)
    requires s.stage.Writing? || s.stage.CopyingFirst?
    ensures var r := StepOf(x, d, s, turn); Recovering(x, first, r.0, r.1)
  {
  }

  lemma RecoveryStep(x: Line, first: Disk, d: Disk, s: Spot, turn: Turn)
    requires Fit(x, first) && !x.way.Download? && Recovering(x, first, d, s)
    requires !Replacing(s.stage) && !s.stage.Writing? && !s.stage.CopyingFirst? && !s.stage.Checking?
    ensures var r := StepOf(x, d, s, turn); Recovering(x, first, r.0, r.1)
  {
  }

  lemma UnzipChecksNothing(x: Line, first: Disk, d: Disk, s: Spot, turn: Turn)
    requires Fit(x, first) && x.way.PerFile? && Unzipping(x, first, d, s)
    requires s.stage.Checking? && x.member.None?
    ensures var r := StepOf(x, d, s, turn); Keeps(x, first, r.0, r.1)
  {
  }

  lemma UnzipChecks(x: Line, first: Disk, d: Disk, s: Spot, turn: Turn)
    requires Fit(x, first) && x.way.PerFile? && Unzipping(x, first, d, s)
    requires s.stage.Checking? && x.member.Some?
    ensures var r := StepOf(x, d, s, turn); Keeps(x, first, r.0, r.1)
  {
  }

  lemma UnzipInstalls(x: Line, first: Disk, d: Disk, s: Spot, turn: Turn)
    requires Fit(x, first) && x.way.PerFile? && Unzipping(x, first, d, s)
    requires Replacing(s.stage)
    ensures var r := StepOf(x, d, s, turn); Keeps(x, first, r.0, r.1)
  {
  }

  lemma UnzipRescues(x: Line, first: Disk, d: Disk, s: Spot, turn: Turn)
    requires Fit(x, first) && x.way.PerFile? && Unzipping(x, first, d, s)
    requires s.stage.GivenUp?
    ensures var r := StepOf(x, d, s, turn); Keeps(x, first, r.0, r.1)
  {
  }

  lemma UnzipWrites(x: Line, first: Disk, d: Disk, s: Spot, turn: Turn)
    requires Fit(x, first) && x.way.PerFile? && Unzipping(x, first, d, s)
    requires s.stage.Writing?
    ensures var r := StepOf(x, d, s, turn); Keeps(x, first, r.0, r.1)
  {
  }

  lemma UnzipStep(x: Line, first: Disk, d: Disk, s: Spot, turn: Turn)
    requires Fit(x, first) && x.way.PerFile? && Unzipping(x, first, d, s)
    requires !s.stage.Checking? && !Replacing(s.stage) && !s.stage.GivenUp? && !s.stage.Writing?
    ensures var r := StepOf(x, d, s, turn); Keeps(x, first, r.0, r.1)
  {
  }

  lemma DumpChecks(x: Line, first: Disk, d: Disk, s: Spot, turn: Turn)
    requires Fit(x, first) && x.way.Whole? && Dumping(x, first, d, s)
    requires s.stage.Checking?
    ensures var r := StepOf(x, d, s, turn); Keeps(x, first, r.0, r.1)
  {
  }

  lemma DumpRescues(x: Line, first: Disk, d: Disk, s: Spot, turn: Turn)
    requires Fit(x, first) && x.way.Whole? && Dumping(x, first, d, s)
    requires s.stage.GivenUp?
    ensures var r := StepOf(x, d, s, turn); Keeps(x, first, r.0, r.1)
  {
  }

  lemma DumpWrites(x: Line, first: Disk, d: Disk, s: Spot, turn: Turn)
    requires Fit(x, first) && x.way.Whole? && Dumping(x, first, d, s)
    requires s.stage.Writing?
    ensures var r := StepOf(x, d, s, turn); Keeps(x, first, r.0, r.1)
  {
  }

  lemma DumpStep(x: Line, first: Disk, d: Disk, s: Spot, turn: Turn)
    requires Fit(x, first) && x.way.Whole? && Dumping(x, first, d, s)
    requires !s.stage.Checking? && !s.stage.GivenUp? && !s.stage.Writing?
    ensures var r := StepOf(x, d, s, turn); Keeps(x, first, r.0, r.1)
  {
  }

  lemma StepKeeps(x: Line, first: Disk, d: Disk, s: Spot, turn: Turn)
    requires Fit(x, first) && Keeps(x, first, d, s)
    ensures var r := StepOf(x, d, s, turn); Keeps(x, first, r.0, r.1)
  {
    var installs, checks, writes := Replacing(s.stage), s.stage.Checking?, s.stage.Writing?;
    if x.way.Download? {
      if installs { DownloadInstalls(x, first, d, s, turn); } else { DownloadStep(x, first, d, s, turn); }
    } else if Recovering(x, first, d, s) {
      if installs { RecoveryInstalls(x, first, d, s, turn); }
      else if checks { RecoveryChecks(x, first, d, s, turn); }
      else if writes || s.stage.CopyingFirst? { RecoveryWrites(x, first, d, s, turn); }
      else { RecoveryStep(x, first, d, s, turn); }
    } else if x.way.PerFile? && Unzipping(x, first, d, s) {
      if installs { UnzipInstalls(x, first, d, s, turn); }
      else if checks && x.member.None? { UnzipChecksNothing(x, first, d, s, turn); }
      else if checks { UnzipChecks(x, first, d, s, turn); }
      else if writes { UnzipWrites(x, first, d, s, turn); }
      else if s.stage.GivenUp? { UnzipRescues(x, first, d, s, turn); }
      else { UnzipStep(x, first, d, s, turn); }
    } else if x.way.Whole? && Dumping(x, first, d, s) {
      if checks { DumpChecks(x, first, d, s, turn); }
      else if writes { DumpWrites(x, first, d, s, turn); }
      else if s.stage.GivenUp? { DumpRescues(x, first, d, s, turn); }
      else { DumpStep(x, first, d, s, turn); }
    }
  }

  lemma {:induction false} RunKeeps(x: Line, first: Disk, d: Disk, s: Spot, turns: seq<Turn>)
    requires Fit(x, first) && Keeps(x, first, d, s)
    ensures var r := RunLine(x, d, s, turns); Keeps(x, first, r.0, r.1)
    decreases |turns|
  {
    if turns != [] {
      StepKeeps(x, first, d, s, turns[0]);
      var r := StepOf(x, d, s, turns[0]);
      RunKeeps(x, first, r.0, r.1, turns[1..]);
    }
  }

  /** What a run may have done to the files of a line. */
  lemma KeepsIsSafe(x: Line, first: Disk, d: Disk, s: Spot)
    requires Fit(x, first) && Keeps(x, first, d, s)
    ensures Safe(x, first) ==> TargetSafe(x.p, first, d)
    ensures Safe(x, first) && !s.again && !Kept(first, d, x.p.full) ==> BackedUp(x.p, first, d)
  {
  }

  lemma KeepsTouches(x: Line, first: Disk, d: Disk, s: Spot, f: string)
    requires Fit(x, first) && Keeps(x, first, d, s)
    requires f in x.Paths() && f in first && !Kept(first, d, f)
    ensures MayTouch(x, first, f)
  {
  }

  /* ---- What some run does ---- */

  ghost predicate Reaches(x: Line, first: Disk, d: Disk, s: Spot) {
    exists turns :: RunLine(x, first, Begin, turns) == (d, s)
  }

  lemma Begins(x: Line, first: Disk)
    ensures Reaches(x, first, first, Begin)
  {
    assert RunLine(x, first, Begin, []) == (first, Begin);
  }

  lemma TakesTurn(x: Line, first: Disk, d: Disk, s: Spot, turn: Turn) returns (e: Disk, t: Spot)
    requires Reaches(x, first, d, s)
    ensures Reaches(x, first, e, t) && (e, t) == StepOf(x, d, s, turn)
  {
    var turns :| RunLine(x, first, Begin, turns) == (d, s);
    RunLinePush(x, first, Begin, turns, turn);
    e, t := StepOf(x, d, s, turn).0, StepOf(x, d, s, turn).1;
  }

  /** A content that neither of the two files has, and that is not the declared one. */
  function Other(p: Pkg, d: Disk, f: string, g: string): (c: string)
    ensures !(c == p.hash) && Lookup(d, f) != Some(c) && Lookup(d, g) != Some(c)
  {
    var a, b := if f in d then d[f] else "", if g in d then d[g] else "";
    LongerDiffers(a + b + p.hash, a, b, p.hash);
    "x" + a + b + p.hash
  }

  lemma LongerDiffers(all: string, a: string, b: string, c: string)
    requires all == a + b + c
    ensures "x" + a + b + c !in {a, b, c}
  {
    assert |"x" + a + b + c| == 1 + |a| + |b| + |c|;
  }

  /** From the start of an attempt to its writing; in place, the backup may be made on the way. */
  lemma Opens(x: Line, first: Disk, d: Disk, s: Spot) returns (e: Disk, t: Spot)
    requires Fit(x, first) && Reaches(x, first, d, s) && s.stage.Start?
    ensures Reaches(x, first, e, t) && t == StartStep(x, d, s).(stage := Writing)
    ensures StartStep(x, d, s).stage.Writing? ==> e == d
    ensures forall f :: x.p.backup != Some(f) ==> Kept(d, e, f)
  {
    e, t := TakesTurn(x, first, d, s, Finish);
    if t.stage.CopyingFirst? {
      e, t := TakesTurn(x, first, e, t, Finish);
    }
  }

  /** Half of some content in the place where the attempt writes. */
  lemma Scribbles(x: Line, first: Disk, d: Disk, s: Spot, c: string) returns (e: Disk, t: Spot)
    requires Fit(x, first) && Reaches(x, first, d, s) && s.stage.Start?
    requires !s.recovering ==> x.way.Download? || x.member.Some?
    ensures Reaches(x, first, e, t) && t == StartStep(x, d, s).(stage := Writing)
    ensures Lookup(e, InstallPath(x, t)) == Some(c)
    ensures forall f :: x.p.backup != Some(f) && f != InstallPath(x, t) ==> Kept(d, e, f)
  {
    e, t := Opens(x, first, d, s);
    e, t := TakesTurn(x, first, e, t, Half(c));
  }

  /** A failed attempt is made again. */
  lemma Retries(x: Line, first: Disk, d: Disk, s: Spot) returns (t: Spot)
    requires Fit(x, first) && Reaches(x, first, d, s) && s.stage.Writing?
    ensures Reaches(x, first, d, t) && t == s.(stage := Start)
  {
    var e;
    e, t := TakesTurn(x, first, d, s, Fail);
    e, t := TakesTurn(x, first, e, t, Finish);
  }

  /** The attempt goes through a temporary path, and the declared content gets there. */
  predicate GoodThroughTemp(x: Line, d: Disk, s: Spot)
    requires x.File?
  {
    var t := StartStep(x, d, s);
    && s.stage.Start? && InstallPath(x, t) == Temp(x.p)
    && (Extracts(x, s) ==> Gets(x) || (x.member.None? && Holds(x.p, d, Temp(x.p))))
  }

  lemma Writes(x: Line, first: Disk, d: Disk, s: Spot) returns (e: Disk, t: Spot)
    requires Fit(x, first) && Reaches(x, first, d, s) && GoodThroughTemp(x, d, s)
    ensures Reaches(x, first, e, t) && e == d[Temp(x.p) := x.p.hash]
    ensures t == StartStep(x, d, s).(stage := Checking) && InstallPath(x, t) == Temp(x.p)
  {
    e, t := Opens(x, first, d, s);
    if !Extracts(x, s) {
      e, t := TakesTurn(x, first, e, t, Half(x.p.hash));
    }
    e, t := TakesTurn(x, first, e, t, Finish);
  }

  lemma Checks(x: Line, first: Disk, d: Disk, s: Spot) returns (e: Disk, t: Spot)
    requires Fit(x, first) && Reaches(x, first, d, s) && GoodThroughTemp(x, d, s)
    ensures Reaches(x, first, e, t) && e == d[Temp(x.p) := x.p.hash]
    ensures t == StartStep(x, d, s).(stage := if x.p.backup.Some? && x.p.full in d then CopyingLast else Moving)
  {
    e, t := Writes(x, first, d, s);
    e, t := TakesTurn(x, first, e, t, Finish);
  }

  /** The target becomes good, and its temporary path is gone. */
  lemma Replaces(x: Line, first: Disk, d: Disk, s: Spot) returns (e: Disk, t: Spot)
    requires Fit(x, first) && Reaches(x, first, d, s) && GoodThroughTemp(x, d, s)
    ensures Reaches(x, first, e, t) && Holds(x.p, e, x.p.full) && Temp(x.p) !in e
    ensures t == StartStep(x, d, s).(stage := Done)
  {
    e, t := Checks(x, first, d, s);
    if t.stage.CopyingLast? {
      e, t := TakesTurn(x, first, e, t, Finish);
    }
    e, t := TakesTurn(x, first, e, t, Finish);
  }

  /** Half of some content in the backup path. */
  lemma CopiesLast(x: Line, first: Disk, d: Disk, s: Spot, c: string) returns (e: Disk, t: Spot)
    requires Fit(x, first) && Reaches(x, first, d, s) && GoodThroughTemp(x, d, s) && x.p.backup.Some? && x.p.full in d
    ensures Reaches(x, first, e, t) && Lookup(e, x.p.backup.value) == Some(c)
  {
    e, t := Checks(x, first, d, s);
    e, t := TakesTurn(x, first, e, t, Half(c));
  }

  lemma CopiesFirst(x: Line, first: Disk, d: Disk, s: Spot, c: string) returns (e: Disk, t: Spot)
    requires Fit(x, first) && Reaches(x, first, d, s) && s.stage.Start? && x.p.backup.Some?
    requires x.p.tmp.None? && (s.recovering || (x.way.Download? && !x.way.there))
    ensures Reaches(x, first, e, t) && Lookup(e, x.p.backup.value) == Some(c)
  {
    e, t := d, s;
    if x.p.full !in d {
      e, t := Scribbles(x, first, d, s, c);
      t := Retries(x, first, e, t);
    }
    e, t := TakesTurn(x, first, e, t, Finish);
    e, t := TakesTurn(x, first, e, t, Half(c));
  }

  /** An extraction that comes out wrong. */
  lemma Fails(x: Line, first: Disk, d: Disk, s: Spot) returns (e: Disk, t: Spot)
    requires Fit(x, first) && Reaches(x, first, d, s) && s.stage.Start? && !s.recovering && !x.way.Download? && !Gets(x)
    requires x.member.None? ==> !Holds(x.p, d, InstallPath(x, StartStep(x, d, s)))
    ensures Reaches(x, first, e, t) && t == AfterBad(x, StartStep(x, d, s), Finish)
    ensures forall f :: f != InstallPath(x, StartStep(x, d, s)) ==> Kept(d, e, f)
    ensures x.p.full in e <==> x.p.full in d || (x.member.Some? && InstallPath(x, StartStep(x, d, s)) == x.p.full)
  {
    e, t := Opens(x, first, d, s);
    e, t := TakesTurn(x, first, e, t, Finish);
    e, t := TakesTurn(x, first, e, t, Finish);
  }

  /** The recovery is reached, with the target on disk if it ever can be. */
  lemma StartsRecovery(x: Line, first: Disk) returns (d: Disk, s: Spot)
    requires Fit(x, first) && Recovers(x, first)
    ensures Reaches(x, first, d, s) && s.recovering && s.stage.Start?
    ensures x.p.full in first || (x.way.Whole? && x.member.Some?) || Leftover(x, first) ==> x.p.full in d
  {
    Begins(x, first);
    d, s := first, Begin;
    if Leftover(x, first) {
      d, s := Replaces(x, first, d, s);
      d, s := TakesTurn(x, first, d, s, Fail);
    }
    assert x.p.full in first || Leftover(x, first) ==> x.p.full in d;
    d, s := Fails(x, first, d, s);
  }

  lemma GivesUpAbsent(x: Line, first: Disk) returns (d: Disk, s: Spot)
    requires Fit(x, first) && EndsAbsent(x, first)
    ensures Reaches(x, first, d, s) && s.stage == GivenUp(true) && x.p.full !in d
    ensures x.p.backup.Some? ==> Kept(first, d, x.p.backup.value)
    ensures x.p.tmp.None? || x.way.Whole? ==> Kept(first, d, Temp(x.p))
  {
    Begins(x, first);
    d, s := Fails(x, first, first, Begin);
  }

  /** Some run changes the file. */
  ghost predicate CanChange(x: Line, first: Disk, f: string) {
    exists d, s :: Reaches(x, first, d, s) && !Kept(first, d, f)
  }

  lemma CanReplace(x: Line, first: Disk)
    requires Fit(x, first) && x.p.full in first && MayReplace(x, first)
    ensures CanChange(x, first, x.p.full)
  {
    var p, d, s := x.p, first, Begin;
    var c := Other(p, first, p.full, p.full);
    Begins(x, first);
    if x.way.Download? || (x.way.PerFile? && !Holds(p, first, p.full) && (Gets(x) || Leftover(x, first))) {
      d, s := Replaces(x, first, d, s);
    } else if x.way.Whole? && x.member.Some? {
      d, s := Scribbles(x, first, d, s, c);
    } else {
      d, s := StartsRecovery(x, first);
      if p.tmp.None? {
        d, s := Scribbles(x, first, d, s, c);
      } else {
        d, s := Replaces(x, first, d, s);
      }
    }
  }

  lemma CanCopy(x: Line, first: Disk)
    requires Fit(x, first) && InBackup(x.p, first) && MayCopy(x, first)
    ensures CanChange(x, first, x.p.backup.value)
  {
    var p, d, s := x.p, first, Begin;
    var c := Other(p, first, p.backup.value, p.full);
    Begins(x, first);
    if x.way.Download? {
      if x.way.there {
        d, s := CopiesLast(x, first, d, s, c);
      } else {
        d, s := CopiesFirst(x, first, d, s, c);
      }
    } else if x.way.PerFile? && (Gets(x) || (p.full in first && Leftover(x, first))) {
      if p.full !in first {
        d, s := InstallsNew(x, first);
      }
      d, s := CopiesLast(x, first, d, s, c);
    } else {
      d, s := StartsRecovery(x, first);
      if p.tmp.None? {
        d, s := CopiesFirst(x, first, d, s, c);
      } else {
        d, s := CopiesLast(x, first, d, s, c);
      }
    }
  }

  /** A new file is installed out of the archive, and the worker starts over. */
  lemma InstallsNew(x: Line, first: Disk) returns (d: Disk, s: Spot)
    requires Fit(x, first) && x.way.PerFile? && Gets(x) && x.p.full !in first
    ensures Reaches(x, first, d, s) && s.stage.Start? && !s.recovering && x.p.full in d
  {
    Begins(x, first);
    d, s := first, Begin;
    if x.p.tmp.Some? {
      d, s := Replaces(x, first, d, s);
    } else {
      d, s := Opens(x, first, d, s);
      d, s := TakesTurn(x, first, d, s, Finish);
      d, s := TakesTurn(x, first, d, s, Finish);
    }
    d, s := TakesTurn(x, first, d, s, Fail);
  }

  lemma CanRescue(x: Line, first: Disk, f: string)
    requires Fit(x, first) && EndsAbsent(x, first) && f in first
    requires x.p.backup == Some(f) || (f == Temp(x.p) && (x.p.tmp.None? || x.way.Whole?) && Restores(x, first))
    ensures CanChange(x, first, f)
  {
    var d, s := GivesUpAbsent(x, first);
    d, s := TakesTurn(x, first, d, s, Finish);
  }

  lemma CanUseTemp(x: Line, first: Disk)
    requires Fit(x, first) && Temp(x.p) in first && MayUseTemp(x, first)
    ensures CanChange(x, first, Temp(x.p))
  {
    var p, d, s := x.p, first, Begin;
    var c := Other(p, first, Temp(p), p.full);
    Begins(x, first);
    if Restores(x, first) && (p.tmp.None? || x.way.Whole?) {
      CanRescue(x, first, Temp(p));
    } else if x.way.Whole? {
      d, s := StartsRecovery(x, first);
      d, s := Scribbles(x, first, d, s, c);
    } else if x.way.PerFile? && x.member.None? {
      if Holds(p, first, Temp(p)) {
        d, s := Replaces(x, first, d, s);
      } else {
        d, s := TakesTurn(x, first, d, s, Finish);
        d, s := TakesTurn(x, first, d, s, Finish);
        d, s := TakesTurn(x, first, d, s, Finish);
      }
    } else {
      if InstallPath(x, StartStep(x, first, Begin)) == p.full {
        d, s := Scribbles(x, first, d, s, c);
        s := Retries(x, first, d, s);
      }
      d, s := Scribbles(x, first, d, s, c);
    }
  }

  lemma CanTouch(x: Line, first: Disk, f: string)
    requires Fit(x, first) && f in first && f in x.Paths() && MayTouch(x, first, f)
    ensures CanChange(x, first, f)
  {
    if f == x.p.full {
      CanReplace(x, first);
    } else if x.p.backup != Some(f) {
      CanUseTemp(x, first);
    } else if MayCopy(x, first) {
      CanCopy(x, first);
    } else {
      CanRescue(x, first, f);
    }
  }

  /** A target that is written in place can be left with a content that it never had and that is not the declared one. */
  lemma InPlaceIsNotSafe(x: Line, first: Disk)
    requires Fit(x, first) && !Safe(x, first)
    ensures exists d, s :: Reaches(x, first, d, s) && !TargetSafe(x.p, first, d)
  {
    var p, d, s := x.p, first, Begin;
    var c := Other(p, first, p.full, if p.backup.Some? then p.backup.value else p.full);
    Begins(x, first);
    if !InPlace(x, first) {
      d, s := StartsRecovery(x, first);
    }
    d, s := Scribbles(x, first, d, s, c);
    assert InstallPath(x, s) == p.full;
    assert !TargetSafe(p, first, d);
  }

  /**
   In the download after an extraction, in place, a target can end with any content at all, or with
   none, whatever it was; and nobody comes to its rescue.
   */
  lemma RecoveryEndsAnyhow(x: Line, first: Disk, content: Option<string>)
    requires Fit(x, first) && Recovers(x, first) && x.p.tmp.None?
    ensures exists d, s :: Reaches(x, first, d, s) && Lookup(d, x.p.full) == content
                           && s.stage == if content == Some(x.p.hash) then Done else GivenUp(false)
  {
    var d, s := StartsRecovery(x, first);
    var c := if content.Some? then content.value else Other(x.p, first, x.p.full, x.p.full);
    d, s := Scribbles(x, first, d, s, c);
    assert InstallPath(x, s) == x.p.full;
    if content.Some? && c != x.p.hash {
      d, s := TakesTurn(x, first, d, s, Fail);
      d, s := TakesTurn(x, first, d, s, Fail);
    } else {
      d, s := TakesTurn(x, first, d, s, Finish);
      d, s := TakesTurn(x, first, d, s, Finish);
      if content.None? {
        d, s := TakesTurn(x, first, d, s, Fail);
      }
    }
  }

  /* ---- Among all the others ---- */

  lemma BeginKeeps(x: Line, first: Disk)
    requires Fit(x, first)
    ensures Keeps(x, first, first, Begin)
  {
  }

  /** What a line did in a run it did alone. */
  lemma AmongOthers(lines: seq<Line>, disk: Disk, run: seq<Act>, i: nat) returns (d: Disk)
    requires LinesApart(lines) && Possible(lines, run) && i < |lines| && Fit(lines[i], disk)
    ensures var t := Run(lines, AtStart(lines, disk), run);
            SameOn(lines[i].Paths(), t.disk, d) && Keeps(lines[i], disk, d, t.spots[i])
  {
    RunsAsIfAlone(lines, AtStart(lines, disk), run, i, disk);
    BeginKeeps(lines[i], disk);
    RunKeeps(lines[i], disk, disk, Begin, Own(run, i));
    d := RunLine(lines[i], disk, Begin, Own(run, i)).0;
  }

  lemma CanHappen(lines: seq<Line>, disk: Disk, i: nat, d: Disk, s: Spot) returns (run: seq<Act>)
    requires LinesApart(lines) && i < |lines| && Reaches(lines[i], disk, d, s)
    ensures Possible(lines, run) && SameOn(lines[i].Paths(), After(lines, disk, run), d)
  {
    var turns :| RunLine(lines[i], disk, Begin, turns) == (d, s);
    AloneIsPossible(lines, disk, i, turns);
    run := Acts(i, turns);
  }

  lemma SameIsAsSafe(x: Line, first: Disk, d: Disk, e: Disk)
    requires x.File? && SameOn(x.Paths(), d, e)
    ensures TargetSafe(x.p, first, d) <==> TargetSafe(x.p, first, e)
    ensures forall f :: f in x.Paths() ==> (Kept(first, d, f) <==> Kept(first, e, f))
    ensures BackedUp(x.p, first, d) <==> BackedUp(x.p, first, e)
  {
    SameHere(x.Paths(), d, e, x.p.full);
    if x.p.backup.Some? {
      SameHere(x.Paths(), d, e, x.p.backup.value);
    }
  }

  /** At every stop: a stop of a run is a run. */
  ghost predicate SurvivesEveryStop(lines: seq<Line>, disk: Disk, p: Pkg) {
    forall run :: Possible(lines, run) ==> TargetSafe(p, disk, After(lines, disk, run))
  }

  /**
   Crash safety, exactly: for any lines with different paths, any interleaving, any content that
   comes, any retries and a stop after any step, the target has its old content or the declared one
   if and only if nothing is extracted over it in place, and no download in place can follow.
   */
  lemma SurvivesEveryStopIff(lines: seq<Line>, disk: Disk, i: nat)
    requires LinesApart(lines) && i < |lines| && Fit(lines[i], disk)
    ensures SurvivesEveryStop(lines, disk, lines[i].p) <==> Safe(lines[i], disk)
  {
    var x := lines[i];
    if Safe(x, disk) {
      forall run | Possible(lines, run)
        ensures TargetSafe(x.p, disk, After(lines, disk, run))
      {
        var d := AmongOthers(lines, disk, run, i);
        KeepsIsSafe(x, disk, d, Run(lines, AtStart(lines, disk), run).spots[i]);
        SameIsAsSafe(x, disk, After(lines, disk, run), d);
      }
    } else {
      InPlaceIsNotSafe(x, disk);
      var d, s :| Reaches(x, disk, d, s) && !TargetSafe(x.p, disk, d);
      var run := CanHappen(lines, disk, i, d, s);
      SameIsAsSafe(x, disk, After(lines, disk, run), d);
    }
  }

  /** A safe target that was replaced left its old content in its backup, if its worker did not start over. */
  lemma ReplacedIsBackedUp(lines: seq<Line>, disk: Disk, run: seq<Act>, i: nat)
    requires LinesApart(lines) && Possible(lines, run) && i < |lines| && Fit(lines[i], disk) && Safe(lines[i], disk)
    requires !Run(lines, AtStart(lines, disk), run).spots[i].again
    ensures Kept(disk, After(lines, disk, run), lines[i].p.full) || BackedUp(lines[i].p, disk, After(lines, disk, run))
  {
    var d := AmongOthers(lines, disk, run, i);
    KeepsIsSafe(lines[i], disk, d, Run(lines, AtStart(lines, disk), run).spots[i]);
    SameIsAsSafe(lines[i], disk, After(lines, disk, run), d);
    assert lines[i].p.full in lines[i].Paths();
  }

  ghost predicate AllProper(lines: seq<Line>, disk: Disk) { forall i :: 0 <= i < |lines| ==> Proper(lines[i], disk) }

  ghost predicate SomeRunChanges(lines: seq<Line>, disk: Disk, f: string) {
    exists run :: Possible(lines, run) && !Kept(disk, After(lines, disk, run), f)
  }

  ghost predicate SomeLineMay(lines: seq<Line>, disk: Disk, f: string) {
    exists i :: 0 <= i < |lines| && f in lines[i].Paths() && MayTouch(lines[i], disk, f)
  }

  lemma RestCanChange(lines: seq<Line>, disk: Disk, i: nat, f: string)
    requires i < |lines| && lines[i].Rest? && f in lines[i].dump && f in disk
    ensures SomeRunChanges(lines, disk, f)
  {
    var c := "x" + disk[f];
    assert |c| > |disk[f]|;
    var run := [Act(i, HalfAt(f, c))];
    assert run[1..] == [];
    var s := Step(lines, AtStart(lines, disk), run[0]);
    assert Run(lines, AtStart(lines, disk), run) == Run(lines, s, []);
    assert Lookup(After(lines, disk, run), f) == Some(c);
  }

  /** Which files on disk can get another content or disappear, exactly. */
  lemma ChangesIff(lines: seq<Line>, disk: Disk, f: string)
    requires LinesApart(lines) && AllProper(lines, disk) && f in disk
    ensures SomeRunChanges(lines, disk, f) <==> SomeLineMay(lines, disk, f)
  {
    if i :| 0 <= i < |lines| && f in lines[i].Paths() {
      assert forall k :: 0 <= k < |lines| && k != i ==> lines[i].Paths() !! lines[k].Paths();
      var x := lines[i];
      if x.Rest? {
        RestCanChange(lines, disk, i, f);
      } else {
        assert Fit(x, disk);
        OneLineChangesIff(lines, disk, i, f);
      }
    } else {
      forall run | Possible(lines, run)
        ensures Kept(disk, After(lines, disk, run), f)
      {
        OthersStay(lines, AtStart(lines, disk), run, f);
      }
    }
  }

  lemma OneLineChangesIff(lines: seq<Line>, disk: Disk, i: nat, f: string)
    requires LinesApart(lines) && i < |lines| && Fit(lines[i], disk) && f in disk && f in lines[i].Paths()
    ensures SomeRunChanges(lines, disk, f) <==> MayTouch(lines[i], disk, f)
  {
    var x := lines[i];
    if MayTouch(x, disk, f) {
      CanTouch(x, disk, f);
      var d, s :| Reaches(x, disk, d, s) && !Kept(disk, d, f);
      var run := CanHappen(lines, disk, i, d, s);
      SameIsAsSafe(x, disk, After(lines, disk, run), d);
    } else {
      forall run | Possible(lines, run)
        ensures Kept(disk, After(lines, disk, run), f)
      {
        var d := AmongOthers(lines, disk, run, i);
        if !Kept(disk, d, f) {
          KeepsTouches(x, disk, d, Run(lines, AtStart(lines, disk), run).spots[i], f);
        }
        SameIsAsSafe(x, disk, After(lines, disk, run), d);
      }
    }
  }
}
