/**
 The jobs of an update: which job may follow which (children, retries, backups), and what
 that implies through the scheduler's theorems. The edges are read off the workers and the job
 classes; files, configurations and answers of the network stay free.
 */
module ImporterJobs {
  import opened Prelude
  import opened Scheduler
  import opened Conservation
  import opened Termination
  import opened Waiter

  /** `hasBackup`: the zip has a stored summary that differs from the announced one. */
  datatype Kind =
    | LoadFingerprints
    | TransferDb | OpenDb | LoadStore | Abort | MixStore | ProcessMain
    | TransferSummary(hasBackup: bool) | OpenSummary(hasBackup: bool) | ProcessZip
    | WaitZips | ProcessIndex
    | TransferContents | OpenContents | FetchFile

  /**
   What the model knows of a job: its kind, its database, the zip tag it would carry if its kind
   is tagged, and its chain. Jobs that stand in for one another share a chain: a transfer job, the
   job after it, and their backup.
   */
  datatype Info = Info(kind: Kind, db: string, zipTag: string, chain: nat)

  /** The jobs of one zip's chain: the ones that make_zip_tag is applied to. */
  predicate OfZipChain(k: Kind) { k.TransferSummary? || k.OpenSummary? || k.ProcessZip? }

  /** The job after a transfer, and what opening a summary leads to, go on in the same chain. */
  predicate Child(a: Info, b: Info) {
    match a.kind
    case TransferDb => b.kind.OpenDb? && b.db == a.db && b.chain == a.chain
    case OpenDb => b.kind.LoadStore? || (b.kind.MixStore? && b.db == a.db)
    case MixStore => b.kind.ProcessMain? && b.db == a.db
    case ProcessMain =>
      (b.kind.TransferSummary? || b.kind.ProcessZip? || b.kind.WaitZips? || b.kind.ProcessIndex?) && b.db == a.db
    case TransferSummary(backup) => b == a.(kind := OpenSummary(backup))
    case OpenSummary(_) => b == a.(kind := ProcessZip)
    case ProcessZip => b.kind.FetchFile? || b.kind.TransferContents?
    case TransferContents => b.kind.OpenContents? && b.chain == a.chain
    case OpenContents => b.kind.FetchFile?
    case WaitZips => b.kind.ProcessIndex? && b.db == a.db
    case ProcessIndex => b.kind.FetchFile?
    case _ => false
  }

  /** What retry_job() may give: the job itself, or for an opener its transfer job. */
  predicate Retry(a: Info, b: Info) {
    match a.kind
    case TransferDb => b == a
    case OpenDb => b.kind.TransferDb? && b.db == a.db && b.chain == a.chain
    case TransferSummary(_) => b == a
    case OpenSummary(backup) => b == a.(kind := TransferSummary(backup))
    case TransferContents => b == a
    case OpenContents => b.kind.TransferContents? && b.chain == a.chain
    case LoadStore => b == a
    case FetchFile => b == a
    case Abort => b == a
    case _ => false
  }

  /** What backup_job() may give; a transfer job asks the job that comes after it. */
  predicate Backup(a: Info, b: Info) {
    match a.kind
    case TransferSummary(backup) => backup && b == a.(kind := ProcessZip)
    case OpenSummary(backup) => backup && b == a.(kind := ProcessZip)
    case LoadStore => b.kind.Abort? && b.chain == a.chain
    case _ => false
  }

  /** The jobs through which a database goes one after the other, and those before its zips are scheduled. */
  predicate IsSpine(k: Kind) { IsEarly(k) || k.WaitZips? || k.ProcessIndex? }
  predicate IsEarly(k: Kind) { k.TransferDb? || k.OpenDb? || k.MixStore? || k.ProcessMain? }

  /** At most one of the jobs is marked. */
  ghost predicate OneAtMost(jobs: seq<Job>, mark: Job -> bool) {
    forall i, k :: 0 <= i < k < |jobs| ==> !(mark(jobs[i]) && mark(jobs[k]))
  }

  ghost function OnSpine(info: Job -> Info): Job -> bool { (j: Job) => IsSpine(info(j).kind) }

  /** A run in which every job's followers are as the importer's classes make them. */
  ghost predicate AnswerFollows(info: Job -> Info, p: Package, a: Answer) {
    && (a.retry.Gave? ==> Retry(info(p.job), info(a.retry.job)))
    && (a.backup.Gave? ==> Backup(info(p.job), info(a.backup.job)))
  }

  ghost predicate Follows(info: Job -> Info, s: State, a: Action)
    requires Enabled(s, a)
  {
    match a
    case Handle(answer) => (
      match s.notes[0]
      case Completed(p, next) => OneAtMost(next, OnSpine(info)) && forall j: Job :: j in next ==> Child(info(p.job), info(j))
      case Erred(p) => AnswerFollows(info, p, answer)
      case _ => true)
    case Reap(i, answer) => s.futures[i].phase.Threw? ==> AnswerFollows(info, s.futures[i].pkg, answer)
    case _ => true
  }

  ghost predicate FollowsRun(c: Config, info: Job -> Info, s: State, run: seq<Action>)
    requires Legal(c, s, run)
    decreases |run|
  {
    run == [] || (Follows(info, s, run[0]) && FollowsRun(c, info, Apply(c, s, run[0]), run[1..]))
  }

  /* ---- Every update ends ---- */

  /** 1 for the jobs from which a backup may still be reached. */
  function Rank(k: Kind): nat {
    match k
    case TransferDb => 1
    case OpenDb => 1
    case LoadStore => 1
    case MixStore => 1
    case ProcessMain => 1
    case TransferSummary(_) => 1
    case OpenSummary(_) => 1
    case _ => 0
  }

  ghost function RankOf(info: Job -> Info): Job -> nat { (j: Job) => Rank(info(j).kind) }

  /** Backups lower the rank, children and retries do not raise it. */
  lemma EdgesRespectRank(a: Info, b: Info)
    ensures Child(a, b) ==> Rank(b.kind) <= Rank(a.kind)
    ensures Retry(a, b) ==> Rank(b.kind) <= Rank(a.kind)
    ensures Backup(a, b) ==> Rank(b.kind) < Rank(a.kind)
  {
  }

  lemma FollowsIsRanked(x: Ctx, info: Job -> Info, s: State, a: Action)
    requires Enabled(s, a) && Follows(info, s, a) && x.rank == RankOf(info)
    ensures Ranked(x, s, a)
  {
  }

  ghost predicate UpdateGoesOn(c: Config, info: Job -> Info, run: nat -> State, acts: nat -> Action, i: nat) {
    Enabled(run(i), acts(i)) && Follows(info, run(i), acts(i)) && run(i + 1) == Apply(c, run(i), acts(i))
  }

  /** No update goes on for ever: the importer's own jobs have the rank that the scheduler needs. */
  lemma EveryUpdateIsFinite(c: Config, info: Job -> Info, jobs: seq<Job>, run: nat -> State, acts: nat -> Action)
    requires run(0) == Loaded(c, jobs)
    ensures exists i: nat :: !UpdateGoesOn(c, info, run, acts, i)
  {
    var x := Ctx(c, RankOf(info), 1);
    EveryRunIsFinite(x, jobs, run, acts);
    var i: nat :| !GoesOn(x, run, acts, i);
    if UpdateGoesOn(c, info, run, acts, i) {
      FollowsIsRanked(x, info, run(i), acts(i));
    }
  }

  /* ---- One package per chain ---- */

  ghost function InChain(info: Job -> Info, k: nat): Package -> nat { (p: Package) => if info(p.job).chain == k then 1 else 0 }

  ghost predicate ChainIdle(info: Job -> Info, s: State, k: nat) { LiveBy(s, InChain(info, k)) == 0 }

  ghost predicate DistinctChains(info: Job -> Info, jobs: seq<Job>) {
    forall i, k :: 0 <= i < k < |jobs| ==> info(jobs[i]).chain != info(jobs[k]).chain
  }

  /** New jobs are new: a child goes on in its parent's chain or starts one that nothing live is in. */
  ghost predicate StartsChains(info: Job -> Info, s: State, a: Action)
    requires Enabled(s, a)
  {
    a.Handle? && s.notes[0].Completed? ==>
      && DistinctChains(info, s.notes[0].next)
      && (forall j: Job :: j in s.notes[0].next ==>
            info(j).chain == info(s.notes[0].pkg.job).chain || ChainIdle(info, s, info(j).chain))
  }

  ghost predicate OnePerChain(info: Job -> Info, s: State) { forall k: nat :: LiveBy(s, InChain(info, k)) <= 1 }

  lemma {:induction false} ChildrenPerChain(c: Config, info: Job -> Info, jobs: seq<Job>, parent: Option<Package>, slot: nat, k: nat)
    requires DistinctChains(info, jobs)
    ensures var n := Sum(Children(c, jobs, parent, slot), InChain(info, k));
            n <= 1 && (n == 1 ==> exists j: Job :: j in jobs && info(j).chain == k)
    decreases |jobs|
  {
    if jobs != [] {
      var rest := jobs[1..];
      assert DistinctChains(info, rest) by {
        assert forall i :: 0 <= i < |rest| ==> rest[i] == jobs[i + 1];
      }
      assert forall j :: j in rest ==> j in jobs;
      if jobs[0].typeId in c.workers {
        ChildrenPerChain(c, info, rest, parent, slot + 1, k);
        ChildrenHead(c, jobs, parent, slot, InChain(info, k));
        if info(jobs[0]).chain == k {
          forall j | j in rest
            ensures info(j).chain != k
          {
            var i :| 0 <= i < |rest| && rest[i] == j;
            assert jobs[i + 1] == j;
          }
        }
      } else {
        ChildrenPerChain(c, info, rest, parent, slot, k);
      }
    }
  }

  /** What an action adds to a chain, it first takes out of it, unless the chain was idle. */
  lemma AddedPerChain(c: Config, info: Job -> Info, s: State, a: Action, k: nat)
    requires Enabled(s, a) && Follows(info, s, a) && StartsChains(info, s, a)
    ensures var added, gone := Sum(FlowOf(c, s, a).added, InChain(info, k)), Sum(FlowOf(c, s, a).gone, InChain(info, k));
            added <= 1 && (added == 1 ==> gone == 1 || ChainIdle(info, s, k))
  {
    var fl := FlowOf(c, s, a);
    if a.Handle? && s.notes[0].Completed? {
      ChildrenPerChain(c, info, s.notes[0].next, Some(s.notes[0].pkg), s.nextSlot, k);
      SumOne(s.notes[0].pkg, InChain(info, k));
    } else if fl.added != [] {
      SumOne(fl.added[0], InChain(info, k));
      SumOne(fl.gone[0], InChain(info, k));
      assert fl.added == [fl.added[0]] && fl.gone == [fl.gone[0]];
    }
  }

  lemma ActionKeepsChains(c: Config, info: Job -> Info, s: State, a: Action)
    requires Enabled(s, a) && Follows(info, s, a) && StartsChains(info, s, a) && OnePerChain(info, s)
    ensures OnePerChain(info, Apply(c, s, a))
  {
    forall k: nat
      ensures LiveBy(Apply(c, s, a), InChain(info, k)) <= 1
    {
      ActionFlow(c, s, a, InChain(info, k));
      AddedPerChain(c, info, s, a, k);
      assert LiveBy(s, InChain(info, k)) <= 1;
    }
  }

  /** With one live package per chain, no other job of a live package's chain is live. */
  lemma OthersInChainAreIdle(info: Job -> Info, s: State, job: Job, j: Job)
    requires OnePerChain(info, s) && IsLive(s, job) && info(j).chain == info(job).chain && j != job
    ensures !IsLive(s, j)
  {
    var k := info(job).chain;
    LiveAdds(info, s, job, j);
    assert LiveBy(s, InChain(info, k)) <= 1;
  }

  lemma {:induction false} SumAdds<T>(xs: seq<T>, f: T -> nat, g: T -> nat, h: T -> nat)
    requires forall x :: f(x) + g(x) <= h(x)
    ensures Sum(xs, f) + Sum(xs, g) <= Sum(xs, h)
  {
    if xs != [] {
      SumAdds(xs[1..], f, g, h);
    }
  }

  lemma LiveAdds(info: Job -> Info, s: State, job: Job, j: Job)
    requires info(j).chain == info(job).chain && j != job
    ensures LiveBy(s, OfJob(job)) + LiveBy(s, OfJob(j)) <= LiveBy(s, InChain(info, info(job).chain))
  {
    var f, g, h := OfJob(job), OfJob(j), InChain(info, info(job).chain);
    SumAdds(s.prio, f, g, h);
    SumAdds(s.normal, f, g, h);
    SumAdds(s.futures, OfFuture(f), OfFuture(g), OfFuture(h));
    SumAdds(s.notes, OfNote(f), OfNote(g), OfNote(h));
  }

  lemma IdleChainIdleJob(info: Job -> Info, s: State, j: Job)
    requires ChainIdle(info, s, info(j).chain)
    ensures !IsLive(s, j)
  {
    var f, h := OfJob(j), InChain(info, info(j).chain);
    SumAtMost(s.prio, f, h);
    SumAtMost(s.normal, f, h);
    SumAtMost(s.futures, OfFuture(f), OfFuture(h));
    SumAtMost(s.notes, OfNote(f), OfNote(h));
  }

  lemma AnswerIsOwned(info: Job -> Info, s: State, p: Package, a: Answer)
    requires OnePerChain(info, s) && IsLive(s, p.job) && AnswerFollows(info, p, a)
    ensures OwnedAnswer(s, p, a)
  {
    if a.retry.Gave? && a.retry.job != p.job {
      OthersInChainAreIdle(info, s, p.job, a.retry.job);
    }
    if a.backup.Gave? && a.backup.job != p.job {
      OthersInChainAreIdle(info, s, p.job, a.backup.job);
    }
  }

  lemma NextIsOwned(info: Job -> Info, s: State, p: Package, next: seq<Job>, j: Job)
    requires OnePerChain(info, s) && IsLive(s, p.job) && j in next && DistinctChains(info, next)
    requires info(j).chain == info(p.job).chain || ChainIdle(info, s, info(j).chain)
    ensures Times(next, j) == 1 && (j == p.job || !IsLive(s, j))
  {
    OnceInDistinct(info, next, j);
    if info(j).chain == info(p.job).chain {
      if j != p.job {
        OthersInChainAreIdle(info, s, p.job, j);
      }
    } else {
      IdleChainIdleJob(info, s, j);
    }
  }

  lemma {:induction false} OnceInDistinct(info: Job -> Info, jobs: seq<Job>, j: Job)
    requires DistinctChains(info, jobs) && j in jobs
    ensures Times(jobs, j) == 1
  {
    var rest := jobs[1..];
    assert jobs == [jobs[0]] + rest;
    assert forall i :: 0 <= i < |rest| ==> rest[i] == jobs[i + 1];
    if j in rest {
      OnceInDistinct(info, rest, j);
      var i :| 0 <= i < |rest| && rest[i] == j;
      assert jobs[0] != jobs[i + 1];
    }
  }

  /** So a job object is in one live package at a time: what the waiters' guarantee asks for. */
  lemma ChainsAreOwned(info: Job -> Info, s: State, a: Action)
    requires Enabled(s, a) && Follows(info, s, a) && StartsChains(info, s, a) && OnePerChain(info, s)
    ensures Owned(s, a)
  {
    if a.Handle? && s.notes[0].Completed? {
      NoteIsLive(s, 0);
      forall j | j in s.notes[0].next
        ensures Times(s.notes[0].next, j) == 1 && (j == s.notes[0].pkg.job || !IsLive(s, j))
      {
        NextIsOwned(info, s, s.notes[0].pkg, s.notes[0].next, j);
      }
    } else if a.Handle? && s.notes[0].Erred? {
      NoteIsLive(s, 0);
      AnswerIsOwned(info, s, s.notes[0].pkg, a.answer);
    } else if a.Reap? && s.futures[a.i].phase.Threw? {
      FutureIsLive(s, a.i);
      AnswerIsOwned(info, s, s.futures[a.i].pkg, a.answer);
    }
  }

  ghost predicate StartsChainsRun(c: Config, info: Job -> Info, s: State, run: seq<Action>)
    requires Legal(c, s, run)
    decreases |run|
  {
    run == [] || (StartsChains(info, s, run[0]) && StartsChainsRun(c, info, Apply(c, s, run[0]), run[1..]))
  }

  lemma {:induction false} RunIsOwned(c: Config, info: Job -> Info, s: State, run: seq<Action>)
    requires Legal(c, s, run) && FollowsRun(c, info, s, run) && StartsChainsRun(c, info, s, run) && OnePerChain(info, s)
    ensures OwnedRun(c, s, run)
    decreases |run|
  {
    if run != [] {
      ChainsAreOwned(info, s, run[0]);
      ActionKeepsChains(c, info, s, run[0]);
      RunIsOwned(c, info, Apply(c, s, run[0]), run[1..]);
    }
  }

  lemma LoadedOnePerChain(c: Config, info: Job -> Info, jobs: seq<Job>)
    requires DistinctChains(info, jobs)
    ensures OnePerChain(info, Loaded(c, jobs)) && forall j :: Times(jobs, j) <= 1
  {
    RegisteredIsPrefix(c, jobs);
    forall k: nat
      ensures LiveBy(Loaded(c, jobs), InChain(info, k)) <= 1
    {
      LoadedLive(c, jobs, InChain(info, k));
      ChildrenPerChain(c, info, Registered(c, jobs), None, 0, k);
    }
    forall j
      ensures Times(jobs, j) <= 1
    {
      if j in jobs {
        OnceInDistinct(info, jobs, j);
      }
    }
  }

  /* ---- A zip tag belongs to one chain ---- */

  /** Jobs carry a zip tag exactly when they are in that zip's chain, and a tag names its database. */
  ghost predicate ZipTagged(info: Job -> Info, tag: string, db: string) {
    && (forall j: Job :: tag in j.tags <==> OfZipChain(info(j).kind) && info(j).zipTag == tag)
    && (forall j: Job :: tag in j.tags ==> info(j).db == db)
  }

  /** A ProcessMain job completes and pushes zip jobs with the tag: only that database's does. */
  ghost predicate Introduces(info: Job -> Info, s: State, a: Action, tag: string)
    requires Enabled(s, a)
  {
    && a.Handle? && s.notes[0].Completed? && info(s.notes[0].pkg.job).kind.ProcessMain?
    && exists j: Job :: j in s.notes[0].next && tag in j.tags
  }

  /** Retries and backups stay in the chain, and children leave it but never join it. */
  lemma ChainIsClosed(info: Job -> Info, s: State, a: Action, tag: string, db: string)
    requires Enabled(s, a) && Follows(info, s, a) && ZipTagged(info, tag, db)
    ensures RetryLineage(s, a, tag)
    ensures !Introduces(info, s, a, tag) ==> Lineage(s, a, tag)
  {
  }

  ghost predicate NeverIntroduces(c: Config, info: Job -> Info, s: State, run: seq<Action>, tag: string)
    requires Legal(c, s, run)
    decreases |run|
  {
    run == [] || (!Introduces(info, s, run[0], tag) && NeverIntroduces(c, info, Apply(c, s, run[0]), run[1..], tag))
  }

  lemma {:induction false} RunKeepsChains(c: Config, info: Job -> Info, s: State, run: seq<Action>, tag: string, db: string)
    requires Legal(c, s, run) && FollowsRun(c, info, s, run) && ZipTagged(info, tag, db)
    ensures RetryLineageRun(c, s, run, tag)
    ensures NeverIntroduces(c, info, s, run, tag) ==> LineageRun(c, s, run, tag)
    decreases |run|
  {
    if run != [] {
      ChainIsClosed(info, s, run[0], tag, db);
      RunKeepsChains(c, info, Apply(c, s, run[0]), run[1..], tag, db);
    }
  }

  /**
   At every moment of an uncancelled run the in-progress set of a zip's tag is empty exactly when
   no job of that zip's chain is live: retries, backups and handing over leave no gap.
   */
  lemma TagIsBusyWhileTheChainLives(c: Config, info: Job -> Info, jobs: seq<Job>, run: seq<Action>, tag: string, db: string)
    requires ZipTagged(info, tag, db) && DistinctChains(info, jobs)
    requires forall j: Job :: j in jobs ==> info(j).kind.LoadFingerprints? || info(j).kind.TransferDb?
    requires Legal(c, Loaded(c, jobs), run) && StartsChainsRun(c, info, Loaded(c, jobs), run)
    requires FollowsRun(c, info, Loaded(c, jobs), run) && !After(c, Loaded(c, jobs), run).cancelled
    ensures var s := After(c, Loaded(c, jobs), run); Busy(s, tag) == {} <==> Closed(s, tag)
  {
    var s0, s := Loaded(c, jobs), After(c, Loaded(c, jobs), run);
    LoadedOnePerChain(c, info, jobs);
    RunIsOwned(c, info, s0, run);
    RunKeepsChains(c, info, s0, run, tag, db);
    LoadedTracks(c, jobs);
    LoadedRootsClean(c, jobs, tag);
    RunTracks(c, s0, run, s0.nextSlot);
    RunKeepsRootsClean(c, s0, run, tag, s0.nextSlot);
    if Busy(s, tag) == {} {
      NotBusyIsClosed(s, s0.nextSlot, tag);
    } else {
      BusyIsExactlyLive(s, s0.nextSlot, tag);
      var j: Job :| j in Busy(s, tag);
      assert IsLive(s, j) && tag in j.tags;
    }
  }

  /* ---- One line of jobs per database ---- */

  /** The jobs along the line of the database, or only the early ones. */
  ghost function LineOf(info: Job -> Info, db: string, early: bool): Job -> bool {
    (j: Job) => IsSpine(info(j).kind) && (early ==> IsEarly(info(j).kind)) && info(j).db == db
  }

  ghost function Weigh(mark: Job -> bool): Package -> nat { (p: Package) => if mark(p.job) then 1 else 0 }

  lemma {:induction false} MarkedChildren(c: Config, jobs: seq<Job>, parent: Option<Package>, slot: nat, mark: Job -> bool)
    requires OneAtMost(jobs, mark)
    ensures var n := Sum(Children(c, jobs, parent, slot), Weigh(mark));
            n <= 1 && (n == 1 ==> exists j: Job :: j in jobs && mark(j))
    decreases |jobs|
  {
    if jobs != [] {
      var rest := jobs[1..];
      assert forall i :: 0 <= i < |rest| ==> rest[i] == jobs[i + 1];
      assert forall j :: j in rest ==> j in jobs;
      if jobs[0].typeId in c.workers {
        MarkedChildren(c, rest, parent, slot + 1, mark);
        ChildrenHead(c, jobs, parent, slot, Weigh(mark));
        if mark(jobs[0]) {
          forall j | j in rest
            ensures !mark(j)
          {
            var i :| 0 <= i < |rest| && rest[i] == j;
            assert jobs[i + 1] == j;
          }
        }
      } else {
        MarkedChildren(c, rest, parent, slot, mark);
      }
    }
  }

  lemma ChildrenOnLine(c: Config, info: Job -> Info, p: Package, next: seq<Job>, slot: nat, db: string, early: bool)
    requires OneAtMost(next, OnSpine(info)) && forall j: Job :: j in next ==> Child(info(p.job), info(j))
    ensures Sum(Children(c, next, Some(p), slot), Weigh(LineOf(info, db, early))) <= Weigh(LineOf(info, db, early))(p)
  {
    var mark := LineOf(info, db, early);
    assert OneAtMost(next, mark) by {
      assert forall i :: 0 <= i < |next| && mark(next[i]) ==> OnSpine(info)(next[i]);
    }
    MarkedChildren(c, next, Some(p), slot, mark);
  }

  /** Along the line of a database an action adds no more jobs than it ends. */
  lemma AddedOnLine(c: Config, info: Job -> Info, s: State, a: Action, db: string, early: bool)
    requires Enabled(s, a) && Follows(info, s, a)
    ensures var g := Weigh(LineOf(info, db, early)); Sum(FlowOf(c, s, a).added, g) <= Sum(FlowOf(c, s, a).gone, g)
  {
    var fl, g := FlowOf(c, s, a), Weigh(LineOf(info, db, early));
    if a.Handle? && s.notes[0].Completed? {
      ChildrenOnLine(c, info, s.notes[0].pkg, s.notes[0].next, s.nextSlot, db, early);
      SumOne(s.notes[0].pkg, g);
    } else if fl.added != [] {
      SumOne(fl.added[0], g);
      SumOne(fl.gone[0], g);
      assert fl.added == [fl.added[0]] && fl.gone == [fl.gone[0]];
    }
  }

  lemma {:induction false} LineNeverGrows(c: Config, info: Job -> Info, s: State, run: seq<Action>, db: string, early: bool)
    requires Legal(c, s, run) && FollowsRun(c, info, s, run)
    ensures LiveBy(After(c, s, run), Weigh(LineOf(info, db, early))) <= LiveBy(s, Weigh(LineOf(info, db, early)))
    decreases |run|
  {
    if run != [] {
      ActionFlow(c, s, run[0], Weigh(LineOf(info, db, early)));
      AddedOnLine(c, info, s, run[0], db, early);
      LineNeverGrows(c, info, Apply(c, s, run[0]), run[1..], db, early);
    }
  }

  lemma LoadedLine(c: Config, info: Job -> Info, jobs: seq<Job>, db: string)
    requires OneAtMost(jobs, LineOf(info, db, false))
    ensures LiveBy(Loaded(c, jobs), Weigh(LineOf(info, db, false))) <= 1
  {
    RegisteredIsPrefix(c, jobs);
    LoadedLive(c, jobs, Weigh(LineOf(info, db, false)));
    MarkedChildren(c, Registered(c, jobs), None, 0, LineOf(info, db, false));
  }

  /** At any moment of any run, of the jobs that a database goes through one after the other at most one is live. */
  lemma OneJobPerDatabase(c: Config, info: Job -> Info, jobs: seq<Job>, run: seq<Action>, db: string)
    requires OneAtMost(jobs, LineOf(info, db, false))
    requires Legal(c, Loaded(c, jobs), run) && FollowsRun(c, info, Loaded(c, jobs), run)
    ensures LiveBy(After(c, Loaded(c, jobs), run), Weigh(LineOf(info, db, false))) <= 1
  {
    LoadedLine(c, info, jobs, db);
    LineNeverGrows(c, info, Loaded(c, jobs), run, db, false);
  }

  /** A worker is at a WaitDbZipsJob of the database. */
  ghost predicate Waiting(info: Job -> Info, s: State, i: nat, db: string) {
    At(s, i, Operating) && info(s.futures[i].pkg.job).kind.WaitZips? && info(s.futures[i].pkg.job).db == db
  }

  /** While it waits, no earlier job of its database is live. */
  lemma WaitingIsPastEarly(info: Job -> Info, s: State, i: nat, db: string)
    requires Waiting(info, s, i, db) && LiveBy(s, Weigh(LineOf(info, db, false))) <= 1
    ensures LiveBy(s, Weigh(LineOf(info, db, true))) == 0
  {
    var job := s.futures[i].pkg.job;
    var f, g, h := OfJob(job), Weigh(LineOf(info, db, true)), Weigh(LineOf(info, db, false));
    FutureIsLive(s, i);
    assert forall p: Package :: f(p) + g(p) <= h(p);
    SumAdds(s.prio, f, g, h);
    SumAdds(s.normal, f, g, h);
    SumAdds(s.futures, OfFuture(f), OfFuture(g), OfFuture(h));
    SumAdds(s.notes, OfNote(f), OfNote(g), OfNote(h));
  }

  /** What introduces the tag is an early job of its database. */
  lemma IntroducerIsEarly(info: Job -> Info, s: State, a: Action, tag: string, db: string)
    requires Enabled(s, a) && Follows(info, s, a) && ZipTagged(info, tag, db) && Introduces(info, s, a, tag)
    ensures LiveBy(s, Weigh(LineOf(info, db, true))) > 0
  {
    var p := s.notes[0].pkg;
    NoteIsLive(s, 0);
    var f, g := OfJob(p.job), Weigh(LineOf(info, db, true));
    assert LineOf(info, db, true)(p.job);
    SumAtMost(s.prio, f, g);
    SumAtMost(s.normal, f, g);
    SumAtMost(s.futures, OfFuture(f), OfFuture(g));
    SumAtMost(s.notes, OfNote(f), OfNote(g));
  }

  lemma {:induction false} PastEarlyIntroducesNothing(c: Config, info: Job -> Info, s: State, run: seq<Action>, tag: string, db: string)
    requires Legal(c, s, run) && FollowsRun(c, info, s, run) && ZipTagged(info, tag, db)
    requires LiveBy(s, Weigh(LineOf(info, db, true))) == 0
    ensures NeverIntroduces(c, info, s, run, tag)
    decreases |run|
  {
    if run != [] {
      if Introduces(info, s, run[0], tag) {
        IntroducerIsEarly(info, s, run[0], tag, db);
      }
      ActionFlow(c, s, run[0], Weigh(LineOf(info, db, true)));
      AddedOnLine(c, info, s, run[0], db, true);
      PastEarlyIntroducesNothing(c, info, Apply(c, s, run[0]), run[1..], tag, db);
    }
  }

  /** The roots of an update: one transfer per database, and the job that loads the fingerprints. */
  ghost predicate Roots(info: Job -> Info, jobs: seq<Job>, db: string) {
    && DistinctChains(info, jobs) && OneAtMost(jobs, LineOf(info, db, false))
    && (forall j: Job :: j in jobs ==> info(j).kind.LoadFingerprints? || info(j).kind.TransferDb?)
  }

  /**
   What a WaitDbZipsWorker knows. While it waits, the job that scheduled its database's zips is
   over, and there is no other. When it finds nothing in progress under the tag of one of them,
   in an uncancelled run, the zip's chain is over for good: every job of it that ended completed
   or failed and is in the lists, which no longer change.
   */
  lemma WaiterLeavesAfterTheChain(c: Config, info: Job -> Info, jobs: seq<Job>, seen: seq<Action>, later: seq<Action>, i: nat,
                                  tag: string, db: string)
    requires ZipTagged(info, tag, db) && Roots(info, jobs, db)
    requires Legal(c, Loaded(c, jobs), seen) && StartsChainsRun(c, info, Loaded(c, jobs), seen)
    requires FollowsRun(c, info, Loaded(c, jobs), seen)
    requires var s := After(c, Loaded(c, jobs), seen);
             && !s.cancelled && Waiting(info, s, i, db) && Busy(s, tag) == {}
             && Legal(c, s, later) && FollowsRun(c, info, s, later)
    ensures var s := After(c, Loaded(c, jobs), seen);
            var t := After(c, s, later);
            && Closed(t, tag)
            && SameOutcomes(s, t, tag)
            && (forall e :: e in t.ended && tag in e.job.tags ==>
                  || (e.how.AsCompleted? && e.job in CompletedUnder(t, tag))
                  || (e.how.AsFailed? && e.job in FailedUnder(t, tag)))
  {
    var s0, s := Loaded(c, jobs), After(c, Loaded(c, jobs), seen);
    LoadedOnePerChain(c, info, jobs);
    OneJobPerDatabase(c, info, jobs, seen, db);
    WaitingIsPastEarly(info, s, i, db);
    PastEarlyIntroducesNothing(c, info, s, later, tag, db);
    RunIsOwned(c, info, s0, seen);
    RunKeepsChains(c, info, s0, seen, tag, db);
    RunKeepsChains(c, info, s, later, tag, db);
    WaiterReadsEveryOutcome(c, jobs, seen, later, tag);
  }
}
