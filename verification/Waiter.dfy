/**
 The waiting barrier over whole runs (src/downloader/jobs/wait_db_zips_worker.py): what an
 empty in-progress set tells about the job system. The one thing asked of workers and jobs is
 that a Job object is in at most one live package at a time.
 */
module Waiter {
  import opened Prelude
  import opened Scheduler
  import opened Conservation
  import opened Tags

  ghost function OfJob(j: Job): Package -> nat { (p: Package) => if p.job == j then 1 else 0 }

  /** Packages pushed during the run (slots from `roots` on), or retries of those, of job j. */
  ghost function OfSpawned(j: Job, roots: nat): Package -> nat {
    (p: Package) => if p.job == j && roots <= p.slot then 1 else 0
  }

  ghost predicate IsLive(s: State, j: Job) { LiveBy(s, OfJob(j)) > 0 }
  ghost predicate IsSpawned(s: State, j: Job, roots: nat) { LiveBy(s, OfSpawned(j, roots)) > 0 }

  function Initiated(s: State): set<Job> { ReportOf(s.records).tracker.initiated }
  function Ended(s: State): set<Job> { ReportOf(s.records).tracker.ended }

  /* ---- The assumption ---- */

  function Times(jobs: seq<Job>, j: Job): nat { multiset(jobs)[j] }

  /** No object enters a second package: it is either the package's own job or not live. */
  ghost predicate OwnedAnswer(s: State, p: Package, a: Answer) {
    && (a.retry.Gave? ==> a.retry.job == p.job || !IsLive(s, a.retry.job))
    && (a.backup.Gave? ==> a.backup.job == p.job || !IsLive(s, a.backup.job))
  }

  /** Each child once, and none of them in a live package already, except the package's own job. */
  ghost predicate OwnedNext(s: State, p: Package, next: seq<Job>) {
    forall j :: j in next ==> Times(next, j) == 1 && (j == p.job || !IsLive(s, j))
  }

  ghost predicate Owned(s: State, a: Action)
    requires Enabled(s, a)
  {
    match a
    case Handle(answer) => (
      match s.notes[0]
      case Completed(p, next) => OwnedNext(s, p, next)
      case Erred(p) => OwnedAnswer(s, p, answer)
      case _ => true)
    case Reap(i, answer) => s.futures[i].phase.Threw? ==> OwnedAnswer(s, s.futures[i].pkg, answer)
    case _ => true
  }

  /* ---- The invariant, while the run is not cancelled ---- */

  ghost predicate OnePackageEach(s: State) {
    forall j :: LiveBy(s, OfJob(j)) <= 1
  }

  ghost predicate LiveNotEnded(s: State) {
    forall j :: IsLive(s, j) ==> j !in Ended(s)
  }

  ghost predicate OpenIsLive(s: State) {
    forall j :: j in Initiated(s) && j !in Ended(s) ==> IsLive(s, j)
  }

  ghost predicate SpawnedIsInitiated(s: State, roots: nat) {
    forall j :: IsSpawned(s, j, roots) ==> j in Initiated(s)
  }

  /** A start that was not handled yet belongs to a live job or to one that has ended. */
  ghost predicate StartsAccounted(s: State) {
    forall n :: n in s.notes && n.Started? ==> IsLive(s, n.pkg.job) || n.pkg.job in Ended(s)
  }

  ghost predicate StartAhead(s: State, j: Job, upto: nat)
    requires upto <= |s.notes|
  {
    j in Initiated(s) || exists k :: 0 <= k < upto && s.notes[k].Started? && s.notes[k].pkg.job == j
  }

  /** First in, first out: the start of a job is reported before its completion. */
  ghost predicate StartsFirst(s: State) {
    && (forall k :: 0 <= k < |s.notes| && s.notes[k].Completed? ==> StartAhead(s, s.notes[k].pkg.job, k))
    && (forall i :: 0 <= i < |s.futures| && s.futures[i].phase.Operating? ==> StartAhead(s, s.futures[i].pkg.job, |s.notes|))
  }

  ghost predicate Tracked(s: State, roots: nat) {
    && roots <= s.nextSlot
    && OnePackageEach(s) && LiveNotEnded(s) && OpenIsLive(s) && SpawnedIsInitiated(s, roots)
    && StartsAccounted(s) && StartsFirst(s)
  }

  /* ---- The records of one action ---- */

  function ErrorRecords(c: Config, s: State, p: Package, a: Answer): seq<Record> {
    match Replacement(c, s.cancelled, p, a)
    case None => [JobFailed(p.job)]
    case Some(q) => [JobRetried(p.job, q.job)]
  }

  ghost function RecordsOf(c: Config, s: State, a: Action): seq<Record>
    requires Enabled(s, a) && !s.cancelled && !a.DrainQueues?
  {
    match a
    case Submit => if NoCycles(c, Head(s)) then [] else [JobFailed(Head(s).job)]
    case Handle(answer) => (
      match s.notes[0]
      case Erred(p) => ErrorRecords(c, s, p, answer)
      case Completed(p, next) => [JobCompleted(p.job, Accepted(c, next))]
      case Started(p) => [JobStarted(p.job)]
      case Dropped(p) => [])
    case Reap(i, answer) =>
      var f := s.futures[i];
      if !f.phase.Threw? then []
      else if f.phase.abort then [JobFailed(f.pkg.job)]
      else ErrorRecords(c, s, f.pkg, answer)
    case _ => []
  }

  lemma ActionRecords(c: Config, s: State, a: Action)
    requires Enabled(s, a) && !s.cancelled && !a.DrainQueues?
    ensures Apply(c, s, a).records == s.records + RecordsOf(c, s, a)
    ensures |RecordsOf(c, s, a)| <= 1
  {
    if a.Handle? && s.notes[0].Completed? {
      PushAllShape(c, s.(notes := s.notes[1..]), s.notes[0].next, Some(s.notes[0].pkg));
    }
  }

  /** The tracker sets after an action. */
  lemma ActionSets(c: Config, s: State, a: Action)
    requires Enabled(s, a) && !s.cancelled && !a.DrainQueues?
    ensures var t, rs := Apply(c, s, a), RecordsOf(c, s, a);
            && Initiated(t) == (if rs == [] then Initiated(s) else InitiatedAfter(Initiated(s), rs[0]))
            && Ended(t) == (if rs == [] then Ended(s) else EndedAfter(Ended(s), rs[0]))
  {
    ActionRecords(c, s, a);
    var rs := RecordsOf(c, s, a);
    if rs == [] {
      assert s.records + rs == s.records;
    } else {
      assert rs == [rs[0]];
      ReportPush(s.records, rs[0]);
      InProgressIsExact(s.records);
      TrackExact(ReportOf(s.records).tracker, rs[0]);
    }
  }

  /* ---- Every action keeps the invariant ---- */

  /** Live packages of each job change by `gone` and `added`. */
  ghost predicate Moved(s: State, t: State, roots: nat, gone: seq<Package>, added: seq<Package>) {
    && (forall j :: LiveBy(t, OfJob(j)) + Sum(gone, OfJob(j)) == LiveBy(s, OfJob(j)) + Sum(added, OfJob(j)))
    && (forall j :: LiveBy(t, OfSpawned(j, roots)) + Sum(gone, OfSpawned(j, roots))
                 == LiveBy(s, OfSpawned(j, roots)) + Sum(added, OfSpawned(j, roots)))
  }

  lemma ActionMoves(c: Config, s: State, a: Action, roots: nat)
    requires Enabled(s, a)
    ensures Moved(s, Apply(c, s, a), roots, FlowOf(c, s, a).gone, FlowOf(c, s, a).added)
  {
    forall j { ActionFlow(c, s, a, OfJob(j)); }
    forall j { ActionFlow(c, s, a, OfSpawned(j, roots)); }
  }

  lemma OneOf(p: Package, roots: nat)
    ensures forall j :: Sum([p], OfJob(j)) == OfJob(j)(p)
    ensures forall j :: Sum([p], OfSpawned(j, roots)) == OfSpawned(j, roots)(p)
  {
  }

  /** The starts waiting in t were already waiting in s or belong to a live job. */
  ghost predicate StartsKnown(s: State, t: State) {
    forall n :: n in t.notes && n.Started? ==> n in s.notes || IsLive(t, n.pkg.job)
  }

  /** The part of the invariant that speaks about live jobs. */
  ghost predicate JobsTracked(s: State, roots: nat) {
    OnePackageEach(s) && LiveNotEnded(s) && OpenIsLive(s) && SpawnedIsInitiated(s, roots) && StartsAccounted(s)
  }

  /** From s to t, the jobs `dead` ended and the jobs `born` entered; all others are as before. */
  ghost predicate Turned(s: State, t: State, roots: nat, dead: set<Job>, born: set<Job>) {
    && dead !! born
    && OnePackageEach(t) && StartsKnown(s, t)
    && (forall j :: IsLive(t, j) <==> j in born || (IsLive(s, j) && j !in dead))
    && (forall j :: IsSpawned(t, j, roots) ==> j in born || j in Initiated(s))
    && Initiated(t) == Initiated(s) + born
    && Ended(t) == Ended(s) - born + dead
  }

  lemma TurnedKeeps(s: State, t: State, roots: nat, dead: set<Job>, born: set<Job>)
    requires JobsTracked(s, roots) && Turned(s, t, roots, dead, born)
    ensures JobsTracked(t, roots)
  {
  }

  lemma FailTurns(s: State, t: State, p: Package, roots: nat)
    requires JobsTracked(s, roots) && Moved(s, t, roots, [p], []) && StartsKnown(s, t)
    requires Initiated(t) == Initiated(s) && Ended(t) == Ended(s) + {p.job}
    ensures Turned(s, t, roots, {p.job}, {})
  {
    OneOf(p, roots);
    forall j
      ensures LiveBy(t, OfJob(j)) <= 1
      ensures IsLive(t, j) <==> IsLive(s, j) && j != p.job
      ensures IsSpawned(t, j, roots) ==> j in Initiated(s)
    {
      assert LiveBy(t, OfJob(j)) + Sum([p], OfJob(j)) == LiveBy(s, OfJob(j));
      assert LiveBy(t, OfSpawned(j, roots)) + Sum([p], OfSpawned(j, roots)) == LiveBy(s, OfSpawned(j, roots));
      assert IsSpawned(t, j, roots) ==> IsSpawned(s, j, roots);
    }
  }

  lemma RetryTurns(s: State, t: State, p: Package, q: Package, roots: nat)
    requires JobsTracked(s, roots) && Moved(s, t, roots, [p], [q]) && StartsKnown(s, t)
    requires IsLive(s, p.job) && q.slot == p.slot && (q.job == p.job || !IsLive(s, q.job))
    requires Initiated(t) == InitiatedAfter(Initiated(s), JobRetried(p.job, q.job))
    requires Ended(t) == EndedAfter(Ended(s), JobRetried(p.job, q.job))
    ensures Turned(s, t, roots, if q.job == p.job then {} else {p.job}, if q.job == p.job then {} else {q.job})
  {
    OneOf(p, roots);
    OneOf(q, roots);
    forall j
      ensures LiveBy(t, OfJob(j)) <= 1
      ensures IsLive(t, j) <==> j == q.job || (IsLive(s, j) && j != p.job)
      ensures IsSpawned(t, j, roots) ==> (j == q.job && j != p.job) || j in Initiated(s)
    {
      assert LiveBy(t, OfJob(j)) + Sum([p], OfJob(j)) == LiveBy(s, OfJob(j)) + Sum([q], OfJob(j));
      assert LiveBy(t, OfSpawned(j, roots)) + Sum([p], OfSpawned(j, roots))
          == LiveBy(s, OfSpawned(j, roots)) + Sum([q], OfSpawned(j, roots));
      assert IsSpawned(s, j, roots) ==> j in Initiated(s);
    }
  }

  lemma {:induction false} ChildrenOf(c: Config, jobs: seq<Job>, parent: Option<Package>, slot: nat, j: Job, roots: nat)
    requires roots <= slot
    ensures Sum(Children(c, jobs, parent, slot), OfJob(j)) == Times(Accepted(c, jobs), j)
    ensures Sum(Children(c, jobs, parent, slot), OfSpawned(j, roots)) == Times(Accepted(c, jobs), j)
    decreases |jobs|
  {
    if jobs != [] {
      assert jobs == [jobs[0]] + jobs[1..];
      if jobs[0].typeId in c.workers {
        ChildrenOf(c, jobs[1..], parent, slot + 1, j, roots);
        ChildrenHead(c, jobs, parent, slot, OfJob(j));
        ChildrenHead(c, jobs, parent, slot, OfSpawned(j, roots));
      } else {
        ChildrenOf(c, jobs[1..], parent, slot, j, roots);
        assert Accepted(c, jobs) == Accepted(c, jobs[1..]);
      }
    }
  }

  lemma {:induction false} AcceptedFewer(c: Config, jobs: seq<Job>, j: Job)
    ensures Times(Accepted(c, jobs), j) <= Times(jobs, j)
  {
    if jobs != [] {
      assert jobs == [jobs[0]] + jobs[1..];
      AcceptedFewer(c, jobs[1..], j);
    }
  }

  function Others(jobs: seq<Job>, job: Job): set<Job> { set j | j in jobs && j != job }

  /** The jobs that a completion ends, and the ones it starts. */
  function Dead(kids: seq<Job>, job: Job): set<Job> { if job in kids then {} else {job} }

  lemma CompleteTurns(c: Config, s: State, t: State, p: Package, next: seq<Job>, roots: nat)
    requires JobsTracked(s, roots) && roots <= s.nextSlot && StartsKnown(s, t)
    requires Moved(s, t, roots, [p], Children(c, next, Some(p), s.nextSlot)) && OwnedNext(s, p, next)
    requires IsLive(s, p.job) && p.job in Initiated(s)
    requires Initiated(t) == InitiatedAfter(Initiated(s), JobCompleted(p.job, Accepted(c, next)))
    requires Ended(t) == EndedAfter(Ended(s), JobCompleted(p.job, Accepted(c, next)))
    ensures var kids := Accepted(c, next); Turned(s, t, roots, Dead(kids, p.job), Others(kids, p.job))
  {
    var kids := Accepted(c, next);
    forall j
      ensures LiveBy(t, OfJob(j)) <= 1
      ensures IsLive(t, j) <==> j in Others(kids, p.job) || (IsLive(s, j) && j !in Dead(kids, p.job))
      ensures IsSpawned(t, j, roots) ==> j in Others(kids, p.job) || j in Initiated(s)
    {
      CompleteCounts(c, s, t, p, next, roots, j);
    }
    AssembleTurn(s, t, roots, kids, p.job);
  }

  lemma AssembleTurn(s: State, t: State, roots: nat, kids: seq<Job>, job: Job)
    requires StartsKnown(s, t) && forall j :: LiveBy(t, OfJob(j)) <= 1
    requires forall j :: IsLive(t, j) <==> j in Others(kids, job) || (IsLive(s, j) && j !in Dead(kids, job))
    requires forall j :: IsSpawned(t, j, roots) ==> j in Others(kids, job) || j in Initiated(s)
    requires Initiated(t) == InitiatedAfter(Initiated(s), JobCompleted(job, kids))
    requires Ended(t) == EndedAfter(Ended(s), JobCompleted(job, kids))
    ensures Turned(s, t, roots, Dead(kids, job), Others(kids, job))
  {
  }

  lemma CompleteCounts(c: Config, s: State, t: State, p: Package, next: seq<Job>, roots: nat, j: Job)
    requires JobsTracked(s, roots) && roots <= s.nextSlot
    requires Moved(s, t, roots, [p], Children(c, next, Some(p), s.nextSlot)) && OwnedNext(s, p, next)
    requires IsLive(s, p.job) && p.job in Initiated(s)
    ensures var kids := Accepted(c, next);
            && LiveBy(t, OfJob(j)) <= 1
            && (IsLive(t, j) <==> j in Others(kids, p.job) || (IsLive(s, j) && j !in Dead(kids, p.job)))
            && (IsSpawned(t, j, roots) ==> j in Others(kids, p.job) || j in Initiated(s))
  {
    OneOf(p, roots);
    ChildrenOf(c, next, Some(p), s.nextSlot, j, roots);
    AcceptedFewer(c, next, j);
    assert LiveBy(t, OfJob(j)) + Sum([p], OfJob(j))
        == LiveBy(s, OfJob(j)) + Sum(Children(c, next, Some(p), s.nextSlot), OfJob(j));
    assert LiveBy(t, OfSpawned(j, roots)) + Sum([p], OfSpawned(j, roots))
        == LiveBy(s, OfSpawned(j, roots)) + Sum(Children(c, next, Some(p), s.nextSlot), OfSpawned(j, roots));
    assert j in Accepted(c, next) ==> j in next;
    assert IsSpawned(s, j, roots) ==> j in Initiated(s);
  }

  lemma StillKeeps(s: State, t: State, roots: nat)
    requires JobsTracked(s, roots) && Moved(s, t, roots, [], []) && StartsKnown(s, t)
    requires Ended(t) == Ended(s)
    requires Initiated(s) <= Initiated(t)
    requires forall j :: j in Initiated(t) && j !in Initiated(s) ==> IsLive(s, j) || j in Ended(s)
    ensures JobsTracked(t, roots)
  {
  }

  lemma FutureCounts(s: State, i: nat, g: Package -> nat)
    requires i < |s.futures| && !s.futures[i].phase.Returned?
    ensures g(s.futures[i].pkg) <= LiveBy(s, g)
  {
    SumWitness(s.futures, OfFuture(g));
    assert OfFuture(g)(s.futures[i]) == g(s.futures[i].pkg);
  }

  lemma NoteCounts(s: State, k: nat, g: Package -> nat)
    requires k < |s.notes| && !s.notes[k].Started?
    ensures g(s.notes[k].pkg) <= LiveBy(s, g)
  {
    SumWitness(s.notes, OfNote(g));
    assert OfNote(g)(s.notes[k]) == g(s.notes[k].pkg);
  }

  lemma FutureIsLive(s: State, i: nat)
    requires i < |s.futures| && !s.futures[i].phase.Returned?
    ensures IsLive(s, s.futures[i].pkg.job)
  {
    FutureCounts(s, i, OfJob(s.futures[i].pkg.job));
  }

  lemma NoteIsLive(s: State, k: nat)
    requires k < |s.notes| && !s.notes[k].Started?
    ensures IsLive(s, s.notes[k].pkg.job)
  {
    NoteCounts(s, k, OfJob(s.notes[k].pkg.job));
  }

  lemma ActionStartsKnown(c: Config, s: State, a: Action)
    requires Enabled(s, a) && !s.cancelled && !a.DrainQueues?
    ensures StartsKnown(s, Apply(c, s, a))
  {
    match a
    case Begin(i) => FutureIsLive(Apply(c, s, a), i);
    case Handle(answer) =>
      if s.notes[0].Completed? {
        PushAllShape(c, s.(notes := s.notes[1..]), s.notes[0].next, Some(s.notes[0].pkg));
      }
    case _ =>
  }

  lemma ErrorTurns(c: Config, s: State, t: State, p: Package, a: Answer, roots: nat)
    requires JobsTracked(s, roots) && IsLive(s, p.job) && OwnedAnswer(s, p, a) && !s.cancelled
    requires Moved(s, t, roots, [p], ErrorFlow(c, false, p, a).added) && StartsKnown(s, t)
    requires Initiated(t) == InitiatedAfter(Initiated(s), ErrorRecords(c, s, p, a)[0])
    requires Ended(t) == EndedAfter(Ended(s), ErrorRecords(c, s, p, a)[0])
    ensures JobsTracked(t, roots)
  {
    var r := Replacement(c, false, p, a);
    if r.None? {
      FailTurns(s, t, p, roots);
      TurnedKeeps(s, t, roots, {p.job}, {});
    } else {
      var q := r.value;
      RetryTurns(s, t, p, q, roots);
      TurnedKeeps(s, t, roots, if q.job == p.job then {} else {p.job}, if q.job == p.job then {} else {q.job});
    }
  }

  lemma HandleTracks(c: Config, s: State, a: Answer, roots: nat)
    requires Conserved(s) && Tracked(s, roots) && !s.cancelled && Enabled(s, Handle(a)) && Owned(s, Handle(a))
    ensures JobsTracked(Apply(c, s, Handle(a)), roots)
  {
    var t, n := Apply(c, s, Handle(a)), s.notes[0];
    ActionMoves(c, s, Handle(a), roots);
    ActionSets(c, s, Handle(a));
    ActionStartsKnown(c, s, Handle(a));
    match n
    case Started(p) =>
      assert n in s.notes;
      StillKeeps(s, t, roots);
    case Erred(p) =>
      NoteIsLive(s, 0);
      ErrorTurns(c, s, t, p, a, roots);
    case Completed(p, next) =>
      NoteIsLive(s, 0);
      assert StartAhead(s, p.job, 0);
      CompleteTurns(c, s, t, p, next, roots);
      var kids := Accepted(c, next);
      TurnedKeeps(s, t, roots, Dead(kids, p.job), Others(kids, p.job));
    case Dropped(p) =>
  }

  lemma ActionTracksJobs(c: Config, s: State, a: Action, roots: nat)
    requires Conserved(s) && Tracked(s, roots) && !s.cancelled && Enabled(s, a) && Owned(s, a)
    requires !a.Cancel? && !a.DrainQueues?
    ensures JobsTracked(Apply(c, s, a), roots)
  {
    var t := Apply(c, s, a);
    ActionMoves(c, s, a, roots);
    ActionSets(c, s, a);
    ActionStartsKnown(c, s, a);
    match a
    case Handle(answer) => HandleTracks(c, s, answer, roots);
    case Submit =>
      if NoCycles(c, Head(s)) {
        StillKeeps(s, t, roots);
      } else {
        FailTurns(s, t, Head(s), roots);
        TurnedKeeps(s, t, roots, {Head(s).job}, {});
      }
    case Reap(i, answer) =>
      var f := s.futures[i];
      if !f.phase.Threw? {
        StillKeeps(s, t, roots);
      } else {
        FutureIsLive(s, i);
        if f.phase.abort {
          FailTurns(s, t, f.pkg, roots);
          TurnedKeeps(s, t, roots, {f.pkg.job}, {});
        } else {
          ErrorTurns(c, s, t, f.pkg, answer, roots);
        }
      }
    case _ => StillKeeps(s, t, roots);
  }

  lemma AheadLater(s: State, t: State, j: Job, k: nat, upto: nat)
    requires k <= |s.notes| && StartAhead(s, j, k) && Initiated(s) <= Initiated(t)
    requires upto <= |t.notes| && s.notes[..k] <= t.notes[..upto]
    ensures StartAhead(t, j, upto)
  {
  }

  lemma HandleFrame(c: Config, s: State, a: Answer)
    requires s.notes != [] && !s.cancelled
    ensures var t := Apply(c, s, Handle(a));
            && t.notes == s.notes[1..] && t.futures == s.futures && Initiated(s) <= Initiated(t)
            && (s.notes[0].Started? ==> s.notes[0].pkg.job in Initiated(t))
  {
    ActionSets(c, s, Handle(a));
    if s.notes[0].Completed? {
      PushAllShape(c, s.(notes := s.notes[1..]), s.notes[0].next, Some(s.notes[0].pkg));
    }
  }

  lemma HandleStartsFirst(c: Config, s: State, a: Answer)
    requires StartsFirst(s) && !s.cancelled && Enabled(s, Handle(a))
    ensures StartsFirst(Apply(c, s, Handle(a)))
  {
    HandleFrame(c, s, a);
    PoppedStartsFirst(s, Apply(c, s, Handle(a)));
  }

  lemma PoppedStartsFirst(s: State, t: State)
    requires StartsFirst(s) && s.notes != []
    requires t.notes == s.notes[1..] && t.futures == s.futures && Initiated(s) <= Initiated(t)
    requires s.notes[0].Started? ==> s.notes[0].pkg.job in Initiated(t)
    ensures StartsFirst(t)
  {
  }

  /** Other actions than handling only add notes, and a completion is added for an operating future. */
  lemma NotesGrow(c: Config, s: State, a: Action)
    requires Enabled(s, a) && !s.cancelled && !a.Cancel? && !a.DrainQueues? && !a.Handle?
    ensures var t := Apply(c, s, a);
            && s.notes <= t.notes
            && (forall k :: |s.notes| <= k < |t.notes| && t.notes[k].Completed? ==>
                  exists i :: 0 <= i < |s.futures| && s.futures[i].phase.Operating? && s.futures[i].pkg == t.notes[k].pkg)
  {
  }

  lemma NoteAhead(c: Config, s: State, a: Action, k: nat)
    requires StartsFirst(s) && !s.cancelled && Enabled(s, a) && !a.Cancel? && !a.DrainQueues? && !a.Handle?
    requires var t := Apply(c, s, a); k < |t.notes| && t.notes[k].Completed? && Initiated(s) <= Initiated(t)
    ensures var t := Apply(c, s, a); StartAhead(t, t.notes[k].pkg.job, k)
  {
    var t := Apply(c, s, a);
    NotesGrow(c, s, a);
    if k < |s.notes| {
      assert s.notes[k] == t.notes[k];
      AheadLater(s, t, s.notes[k].pkg.job, k, k);
    } else {
      var i :| 0 <= i < |s.futures| && s.futures[i].phase.Operating? && s.futures[i].pkg == t.notes[k].pkg;
      AheadLater(s, t, s.futures[i].pkg.job, |s.notes|, k);
    }
  }

  lemma ActionStartsFirst(c: Config, s: State, a: Action)
    requires StartsFirst(s) && !s.cancelled && Enabled(s, a) && !a.Cancel? && !a.DrainQueues?
    ensures StartsFirst(Apply(c, s, a))
  {
    if a.Handle? {
      HandleStartsFirst(c, s, a.answer);
    } else {
      var t := Apply(c, s, a);
      ActionSets(c, s, a);
      NotesGrow(c, s, a);
      forall k | 0 <= k < |t.notes| && t.notes[k].Completed?
        ensures StartAhead(t, t.notes[k].pkg.job, k)
      {
        NoteAhead(c, s, a, k);
      }
      forall i | 0 <= i < |t.futures| && t.futures[i].phase.Operating?
        ensures StartAhead(t, t.futures[i].pkg.job, |t.notes|)
      {
        OperatingAhead(c, s, a, i);
      }
    }
  }

  /** Where an operating future was before the action. */
  lemma OperatingBefore(c: Config, s: State, a: Action, i: nat) returns (k: nat)
    requires !s.cancelled && Enabled(s, a) && !a.Cancel? && !a.DrainQueues? && !a.Handle? && a != Begin(i)
    requires var t := Apply(c, s, a); i < |t.futures| && t.futures[i].phase.Operating?
    ensures k < |s.futures| && s.futures[k] == Apply(c, s, a).futures[i]
  {
    k := if a.Reap? && a.i <= i then i + 1 else i;
    match a
    case Submit =>
    case Reap(j, _) => assert Apply(c, s, a).futures == RemoveAt(s.futures, j);
    case _ =>
  }

  lemma OperatingAhead(c: Config, s: State, a: Action, i: nat)
    requires StartsFirst(s) && !s.cancelled && Enabled(s, a) && !a.Cancel? && !a.DrainQueues? && !a.Handle?
    requires var t := Apply(c, s, a); i < |t.futures| && t.futures[i].phase.Operating?
    requires var t := Apply(c, s, a); s.notes <= t.notes && Initiated(s) <= Initiated(t)
    ensures var t := Apply(c, s, a); StartAhead(t, t.futures[i].pkg.job, |t.notes|)
  {
    var t := Apply(c, s, a);
    if a == Begin(i) {
      assert t.notes[|s.notes|] == Started(s.futures[i].pkg);
    } else {
      var k := OperatingBefore(c, s, a, i);
      AheadLater(s, t, s.futures[k].pkg.job, |s.notes|, |t.notes|);
    }
  }

  /** At the end of an uncancelled run there is nothing to drain. */
  lemma IdleDrainTracks(s: State, roots: nat)
    requires Tracked(s, roots) && s.prio == [] && s.normal == [] && s.jobsCancelled == []
    ensures Tracked(Drain(s), roots)
  {
    var t := Drain(s);
    assert s.prio + s.normal == [];
    assert t == s.(drained := true);
    forall j: Job
      ensures LiveBy(t, OfJob(j)) == LiveBy(s, OfJob(j)) && (IsLive(t, j) <==> IsLive(s, j))
      ensures IsSpawned(t, j, roots) <==> IsSpawned(s, j, roots)
    {
      assert LiveBy(t, OfJob(j)) == LiveBy(s, OfJob(j));
      assert LiveBy(t, OfSpawned(j, roots)) == LiveBy(s, OfSpawned(j, roots));
    }
    forall n | n in t.notes && n.Started?
      ensures IsLive(t, n.pkg.job) || n.pkg.job in Ended(t)
    {
      assert IsLive(s, n.pkg.job) || n.pkg.job in Ended(s);
    }
    forall k | 0 <= k < |t.notes| && t.notes[k].Completed?
      ensures StartAhead(t, t.notes[k].pkg.job, k)
    {
      assert StartAhead(s, t.notes[k].pkg.job, k);
    }
    forall i | 0 <= i < |t.futures| && t.futures[i].phase.Operating?
      ensures StartAhead(t, t.futures[i].pkg.job, |t.notes|)
    {
      assert StartAhead(s, s.futures[i].pkg.job, |s.notes|);
    }
  }

  lemma ActionTracks(c: Config, s: State, a: Action, roots: nat)
    requires Conserved(s) && !s.cancelled && Tracked(s, roots) && Enabled(s, a) && Owned(s, a)
    ensures var t := Apply(c, s, a); t.cancelled || Tracked(t, roots)
  {
    if a.DrainQueues? {
      LoopLeftMeansDone(s);
      IdleDrainTracks(s, roots);
    } else if !a.Cancel? {
      ActionTracksJobs(c, s, a, roots);
      ActionStartsFirst(c, s, a);
      SlotsGrow(c, s, a);
    }
  }

  /* ---- Whole runs ---- */

  ghost predicate OwnedRun(c: Config, s: State, run: seq<Action>)
    requires Legal(c, s, run)
    decreases |run|
  {
    run == [] || (Owned(s, run[0]) && OwnedRun(c, Apply(c, s, run[0]), run[1..]))
  }

  lemma CancelledStays(c: Config, s: State, a: Action)
    requires Enabled(s, a) && s.cancelled
    ensures Apply(c, s, a).cancelled
  {
    if a.DrainQueues? {
      DropAllShape(s, s.prio + s.normal);
    }
  }

  lemma {:induction false} RunTracks(c: Config, s: State, run: seq<Action>, roots: nat)
    requires Legal(c, s, run) && OwnedRun(c, s, run) && Conserved(s)
    requires s.cancelled || Tracked(s, roots)
    ensures var t := After(c, s, run); Conserved(t) && (t.cancelled || Tracked(t, roots))
    decreases |run|
  {
    if run != [] {
      var t := Apply(c, s, run[0]);
      ActionConserves(c, s, run[0]);
      if s.cancelled {
        CancelledStays(c, s, run[0]);
      } else {
        ActionTracks(c, s, run[0], roots);
      }
      RunTracks(c, t, run[1..], roots);
    }
  }

  lemma LoadedTracks(c: Config, jobs: seq<Job>)
    requires forall j :: Times(jobs, j) <= 1
    ensures var s := Loaded(c, jobs); Conserved(s) && Tracked(s, s.nextSlot)
  {
    var s, accepted := Loaded(c, jobs), Registered(c, jobs);
    LoadedConserved(c, jobs);
    PushAllShape(c, Fresh, accepted, None);
    forall j
      ensures LiveBy(s, OfJob(j)) <= 1
    {
      LoadedLive(c, jobs, OfJob(j));
      ChildrenOf(c, accepted, None, 0, j, 0);
      AcceptedFewer(c, accepted, j);
      RegisteredFewer(c, jobs, j);
    }
    forall j
      ensures !IsSpawned(s, j, s.nextSlot)
    {
      LoadedLive(c, jobs, OfSpawned(j, s.nextSlot));
      RootsNotSpawned(c, accepted, 0, j, s.nextSlot);
    }
  }

  lemma {:induction false} RegisteredFewer(c: Config, jobs: seq<Job>, j: Job)
    ensures Times(Registered(c, jobs), j) <= Times(jobs, j)
  {
    if jobs != [] {
      assert jobs == [jobs[0]] + jobs[1..];
      RegisteredFewer(c, jobs[1..], j);
    }
  }

  lemma {:induction false} RootsNotSpawned(c: Config, jobs: seq<Job>, slot: nat, j: Job, roots: nat)
    requires slot + |Children(c, jobs, None, slot)| <= roots
    ensures Sum(Children(c, jobs, None, slot), OfSpawned(j, roots)) == 0
    decreases |jobs|
  {
    if jobs != [] {
      if jobs[0].typeId in c.workers {
        ChildrenHead(c, jobs, None, slot, OfSpawned(j, roots));
        RootsNotSpawned(c, jobs[1..], slot + 1, j, roots);
      } else {
        RootsNotSpawned(c, jobs[1..], slot, j, roots);
      }
    }
  }

  function Busy(s: State, tag: string): set<Job> { Members(ReportOf(s.records).tracker, tag) }
  function CompletedUnder(s: State, tag: string): seq<Job> { Listed(ReportOf(s.records).completed, tag) }
  function FailedUnder(s: State, tag: string): seq<Job> { Listed(ReportOf(s.records).failed, tag) }

  /** In an uncancelled run the in-progress set of a tag is the set of live, started or spawned jobs carrying it. */
  lemma BusyIsExactlyLive(s: State, roots: nat, tag: string)
    requires !s.cancelled && Tracked(s, roots)
    ensures forall j :: j in Busy(s, tag) <==> tag in j.tags && IsLive(s, j) && j in Initiated(s)
    ensures forall j: Job :: tag in j.tags && IsSpawned(s, j, roots) ==> j in Busy(s, tag)
  {
    InProgressIsExact(s.records);
    forall j ensures IsSpawned(s, j, roots) ==> IsLive(s, j) { SpawnedIsLive(s, j, roots); }
  }

  lemma {:induction false} SumAtMost<T>(xs: seq<T>, f: T -> nat, g: T -> nat)
    requires forall x :: f(x) <= g(x)
    ensures Sum(xs, f) <= Sum(xs, g)
  {
    if xs != [] {
      SumAtMost(xs[1..], f, g);
    }
  }

  lemma SpawnedIsLive(s: State, j: Job, roots: nat)
    ensures LiveBy(s, OfSpawned(j, roots)) <= LiveBy(s, OfJob(j))
  {
    var f, g := OfSpawned(j, roots), OfJob(j);
    SumAtMost(s.prio, f, g);
    SumAtMost(s.normal, f, g);
    SumAtMost(s.futures, OfFuture(f), OfFuture(g));
    SumAtMost(s.notes, OfNote(f), OfNote(g));
  }

  /** Handing over: when a parent's completion is handled, its children's tags are busy at once. */
  lemma ChildrenAreBusyAtOnce(c: Config, s: State, a: Answer, roots: nat, child: Job, tag: string)
    requires Conserved(s) && Tracked(s, roots) && !s.cancelled && Enabled(s, Handle(a)) && Owned(s, Handle(a))
    requires s.notes[0].Completed? && child in Accepted(c, s.notes[0].next) && tag in child.tags
    ensures child in Busy(Apply(c, s, Handle(a)), tag)
  {
    var t, p, next := Apply(c, s, Handle(a)), s.notes[0].pkg, s.notes[0].next;
    PushAllShape(c, s.(notes := s.notes[1..]), next, Some(p));
    ActionTracks(c, s, Handle(a), roots);
    ActionMoves(c, s, Handle(a), roots);
    OneOf(p, roots);
    ChildrenOf(c, next, Some(p), s.nextSlot, child, roots);
    AcceptedFewer(c, next, child);
    SpawnedIsLive(s, p.job, roots);
    ActionSets(c, s, Handle(a));
    assert StartAhead(s, p.job, 0);
    NoteIsLive(s, 0);
    assert LiveBy(t, OfJob(child)) + Sum([p], OfJob(child))
        == LiveBy(s, OfJob(child)) + Sum(Children(c, next, Some(p), s.nextSlot), OfJob(child));
    BusyIsExactlyLive(t, roots, tag);
  }

  /* ---- Outcomes are listed under their tags ---- */

  ghost predicate OutcomesListed(records: seq<Record>, ended: seq<End>) {
    forall e: End, tag: string :: e in ended && tag in e.job.tags ==> IsListed(records, e, tag)
  }

  ghost predicate IsListed(records: seq<Record>, e: End, tag: string) {
    && (e.how.AsCompleted? ==> e.job in Listed(ReportOf(records).completed, tag))
    && (e.how.AsFailed? ==> e.job in Listed(ReportOf(records).failed, tag))
  }

  lemma ListsAfter(records: seq<Record>, r: Record, tag: string)
    ensures var before, later := ReportOf(records), ReportOf(records + [r]);
            && Listed(later.completed, tag) == Listed(before.completed, tag) + (if r.JobCompleted? && tag in r.job.tags then [r.job] else [])
            && Listed(later.failed, tag) == Listed(before.failed, tag) + (if r.JobFailed? && tag in r.job.tags then [r.job] else [])
  {
  }

  lemma RecordListed(records: seq<Record>, ended: seq<End>, r: Record)
    requires OutcomesListed(records, ended)
    ensures OutcomesListed(records + [r], ended)
  {
  }

  lemma EndListed(records: seq<Record>, ended: seq<End>, r: Record, e: End)
    requires OutcomesListed(records, ended)
    requires e.how.AsCompleted? ==> r.JobCompleted? && r.job == e.job
    requires e.how.AsFailed? ==> r.JobFailed? && r.job == e.job
    ensures OutcomesListed(records + [r], ended + [e])
  {
  }

  lemma {:induction false} DropAllListed(s: State, ps: seq<Package>)
    requires OutcomesListed(s.records, s.ended)
    ensures OutcomesListed(s.records, DropAll(s, ps).ended)
    decreases |ps|
  {
    if ps != [] {
      var t := DropJob(s, ps[0]);
      assert forall e, tag :: e in t.ended && tag in e.job.tags && e !in s.ended ==> IsListed(s.records, e, tag);
      DropAllListed(t, ps[1..]);
    }
  }

  lemma ErrorListed(c: Config, s: State, p: Package, a: Answer)
    requires OutcomesListed(s.records, s.ended)
    ensures var t := HandleError(c, s, p, a); OutcomesListed(t.records, t.ended)
  {
  }

  /** Every slot that ended completed or failed is in the list of each tag its job carried. */
  lemma ActionListed(c: Config, s: State, a: Action)
    requires Enabled(s, a) && OutcomesListed(s.records, s.ended)
    ensures var t := Apply(c, s, a); OutcomesListed(t.records, t.ended)
  {
    match a
    case Submit => EndListed(s.records, s.ended, JobFailed(Head(s).job), End(Head(s).slot, Head(s).job, AsFailed));
    case Handle(answer) =>
      var u, n := s.(notes := s.notes[1..]), s.notes[0];
      match n {
        case Erred(p) => ErrorListed(c, u, p, answer);
        case Completed(p, next) =>
          PushAllShape(c, u, next, Some(p));
          EndListed(s.records, s.ended, JobCompleted(p.job, []), End(p.slot, p.job, AsCompleted));
          EndListed(s.records, s.ended, JobCompleted(p.job, Accepted(c, next)), End(p.slot, p.job, AsCompleted));
        case Started(p) => RecordListed(s.records, s.ended, JobStarted(p.job));
        case Dropped(p) => DropAllListed(u, [p]); assert DropAll(u, [p]) == DropJob(u, p);
      }
    case Reap(i, answer) =>
      var p := s.futures[i].pkg;
      EndListed(s.records, s.ended, JobFailed(p.job), End(p.slot, p.job, AsFailed));
      ErrorListed(c, RemoveFuture(s, i), p, answer);
    case CancelFuture(i) =>
      var p := s.futures[i].pkg;
      EndListed(s.records, s.ended, JobFailed(p.job), End(p.slot, p.job, AsFailed));
      DropAllListed(RemoveFuture(s, i), [p]);
      assert DropAll(RemoveFuture(s, i), [p]) == DropJob(RemoveFuture(s, i), p);
    case DrainQueues =>
      var t := DropAll(s, s.prio + s.normal);
      DropAllShape(s, s.prio + s.normal);
      DropAllListed(s, s.prio + s.normal);
      RecordListed(s.records, t.ended, JobsCancelled(t.jobsCancelled));
    case _ =>
  }

  lemma {:induction false} RunListed(c: Config, s: State, run: seq<Action>)
    requires Legal(c, s, run) && OutcomesListed(s.records, s.ended)
    ensures var t := After(c, s, run); OutcomesListed(t.records, t.ended)
    decreases |run|
  {
    if run != [] {
      ActionListed(c, s, run[0]);
      RunListed(c, Apply(c, s, run[0]), run[1..]);
    }
  }

  /* ---- Once a tag is closed it stays closed ---- */

  /** No live package, wherever it is, carries the tag. */
  ghost predicate Closed(s: State, tag: string) {
    forall j: Job :: tag in j.tags ==> !IsLive(s, j)
  }

  ghost predicate TagFrom(p: Package, a: Answer, tag: string) {
    && (a.retry.Gave? && tag in a.retry.job.tags ==> tag in p.job.tags)
    && (a.backup.Gave? && tag in a.backup.job.tags ==> tag in p.job.tags)
  }

  /** Retries and backups carry a tag only when the job they replace does. */
  ghost predicate RetryLineage(s: State, a: Action, tag: string)
    requires Enabled(s, a)
  {
    match a
    case Handle(answer) => s.notes[0].Erred? ==> TagFrom(s.notes[0].pkg, answer, tag)
    case Reap(i, answer) => s.futures[i].phase.Threw? ==> TagFrom(s.futures[i].pkg, answer, tag)
    case _ => true
  }

  /** And so do children, once the job that introduces the tag has completed. */
  ghost predicate Lineage(s: State, a: Action, tag: string)
    requires Enabled(s, a)
  {
    && RetryLineage(s, a, tag)
    && (a.Handle? && s.notes[0].Completed? ==>
          forall j: Job :: j in s.notes[0].next && tag in j.tags ==> tag in s.notes[0].pkg.job.tags)
  }

  lemma GoneCounts(c: Config, s: State, a: Action, p: Package, g: Package -> nat)
    requires Enabled(s, a) && p in FlowOf(c, s, a).gone
    ensures g(p) <= LiveBy(s, g)
  {
    match a
    case Submit => PopLive(s, g);
    case Handle(_) => NoteCounts(s, 0, g);
    case Reap(i, _) => FutureCounts(s, i, g);
    case CancelFuture(i) => FutureCounts(s, i, g);
    case DrainQueues =>
      SumWitness(s.prio, g);
      SumWitness(s.normal, g);
    case _ =>
  }

  lemma GoneWasLive(c: Config, s: State, a: Action, p: Package)
    requires Enabled(s, a) && p in FlowOf(c, s, a).gone
    ensures IsLive(s, p.job)
  {
    GoneCounts(c, s, a, p, OfJob(p.job));
  }

  lemma {:induction false} ChildrenJobs(c: Config, jobs: seq<Job>, parent: Option<Package>, slot: nat, q: Package)
    requires q in Children(c, jobs, parent, slot)
    ensures q.job in jobs && slot <= q.slot
    decreases |jobs|
  {
    if jobs[0].typeId in c.workers {
      if q != NewPackage(jobs[0], parent, slot) {
        ChildrenJobs(c, jobs[1..], parent, slot + 1, q);
      }
    } else {
      ChildrenJobs(c, jobs[1..], parent, slot, q);
    }
  }

  /** A closed tag: what an action adds does not carry it. */
  lemma AddedDoNotCarry(c: Config, s: State, a: Action, tag: string, q: Package)
    requires Enabled(s, a) && Closed(s, tag) && Lineage(s, a, tag) && q in FlowOf(c, s, a).added
    ensures tag !in q.job.tags
  {
    var p := if a.Handle? then s.notes[0].pkg else s.futures[a.i].pkg;
    GoneWasLive(c, s, a, p);
    if a.Handle? && s.notes[0].Completed? {
      ChildrenJobs(c, s.notes[0].next, Some(p), s.nextSlot, q);
    }
  }

  lemma ClosedStays(c: Config, s: State, a: Action, tag: string)
    requires Enabled(s, a) && Closed(s, tag) && Lineage(s, a, tag)
    ensures Closed(Apply(c, s, a), tag)
  {
    forall j: Job | tag in j.tags
      ensures !IsLive(Apply(c, s, a), j)
    {
      ActionFlow(c, s, a, OfJob(j));
      var added := FlowOf(c, s, a).added;
      SumWitness(added, OfJob(j));
      if Sum(added, OfJob(j)) > 0 {
        var i :| 0 <= i < |added| && OfJob(j)(added[i]) > 0;
        AddedDoNotCarry(c, s, a, tag, added[i]);
      }
    }
  }

  /* ---- What a closed tag means for the lists ---- */

  ghost predicate Covers(ps: seq<Package>, j: Job) { exists p :: p in ps && p.job == j }

  /** From s to t at most one record and any ends, all about the packages `gone`. */
  ghost predicate ReportsOn(s: State, t: State, gone: seq<Package>, rs: seq<Record>) {
    && |rs| <= 1 && t.records == s.records + rs
    && (forall r :: r in rs && (r.JobCompleted? || r.JobFailed?) ==> Covers(gone, r.job))
    && (forall e :: e in t.ended && e !in s.ended ==> Covers(gone, e.job))
  }

  lemma OneReports(s: State, t: State, p: Package, r: Record, how: How)
    requires t.records == s.records + [r] && t.ended == s.ended + [End(p.slot, p.job, how)]
    requires (r.JobCompleted? || r.JobFailed?) ==> r.job == p.job
    ensures ReportsOn(s, t, [p], [r])
  {
  }

  lemma ErrorReports(c: Config, s: State, p: Package, a: Answer) returns (rs: seq<Record>)
    ensures ReportsOn(s, HandleError(c, s, p, a), [p], rs)
  {
    var t := HandleError(c, s, p, a);
    if Replacement(c, s.cancelled, p, a).None? {
      rs := [JobFailed(p.job)];
      OneReports(s, t, p, rs[0], AsFailed);
    } else {
      rs := [t.records[|s.records|]];
    }
  }

  lemma HandleReports(c: Config, s: State, a: Answer) returns (rs: seq<Record>)
    requires s.notes != []
    ensures ReportsOn(s, Apply(c, s, Handle(a)), FlowOf(c, s, Handle(a)).gone, rs)
  {
    var u, n, t := s.(notes := s.notes[1..]), s.notes[0], Apply(c, s, Handle(a));
    match n
    case Erred(p) => rs := ErrorReports(c, u, p, a);
    case Completed(p, next) =>
      PushAllShape(c, u, next, Some(p));
      rs := [JobCompleted(p.job, if s.cancelled then [] else Accepted(c, next))];
      OneReports(s, t, p, rs[0], AsCompleted);
    case Started(p) => rs := [JobStarted(p.job)];
    case Dropped(p) =>
      assert p in [p];
      assert Covers([p], p.job);
      rs := [];
      assert s.records + rs == s.records;
  }

  lemma DrainReports(s: State) returns (rs: seq<Record>)
    ensures ReportsOn(s, Drain(s), s.prio + s.normal, rs)
  {
    var t, ps := Drain(s), s.prio + s.normal;
    DropAllShape(s, ps);
    forall e | e in t.ended && e !in s.ended
      ensures Covers(ps, e.job)
    {
      var k :| 0 <= k < |t.ended| && t.ended[k] == e;
      assert t.ended[|s.ended| + (k - |s.ended|)].job == ps[k - |s.ended|].job;
      assert ps[k - |s.ended|] in ps;
    }
    rs := if t.jobsCancelled == [] then [] else [JobsCancelled(t.jobsCancelled)];
    assert t.records == s.records + rs;
  }

  lemma FutureReports(c: Config, s: State, a: Action) returns (rs: seq<Record>)
    requires Enabled(s, a) && (a.Reap? || a.CancelFuture?)
    ensures ReportsOn(s, Apply(c, s, a), FlowOf(c, s, a).gone, rs)
  {
    var f, u := s.futures[a.i], RemoveFuture(s, a.i);
    var t := Apply(c, s, a);
    rs := [];
    assert s.records + rs == s.records;
    assert f.pkg in [f.pkg];
    assert Covers([f.pkg], f.pkg.job);
    if f.phase.Threw? {
      if a.Reap? && !f.phase.abort {
        rs := ErrorReports(c, u, f.pkg, a.answer);
      } else {
        rs := [JobFailed(f.pkg.job)];
        OneReports(s, t, f.pkg, rs[0], AsFailed);
      }
    }
  }

  /** The record and the ends of an action are about packages it takes out of play. */
  lemma ActionReports(c: Config, s: State, a: Action) returns (rs: seq<Record>)
    requires Enabled(s, a)
    ensures ReportsOn(s, Apply(c, s, a), FlowOf(c, s, a).gone, rs)
  {
    if a.Handle? {
      rs := HandleReports(c, s, a.answer);
    } else if a.Reap? || a.CancelFuture? {
      rs := FutureReports(c, s, a);
    } else if a.DrainQueues? {
      rs := DrainReports(s);
    } else if a.Submit? && !NoCycles(c, Head(s)) {
      rs := [JobFailed(Head(s).job)];
      OneReports(s, Apply(c, s, a), Head(s), rs[0], AsFailed);
    } else {
      rs := [];
      assert s.records + rs == s.records;
    }
  }

  /** A closed tag gains no outcome. */
  ghost predicate SameOutcomes(s: State, t: State, tag: string) {
    && CompletedUnder(t, tag) == CompletedUnder(s, tag)
    && FailedUnder(t, tag) == FailedUnder(s, tag)
    && (forall e :: e in t.ended && tag in e.job.tags ==> e in s.ended)
  }

  lemma ClosedGainsNothing(c: Config, s: State, a: Action, tag: string)
    requires Enabled(s, a) && Closed(s, tag)
    ensures SameOutcomes(s, Apply(c, s, a), tag)
  {
    var rs := ActionReports(c, s, a);
    forall j: Job | Covers(FlowOf(c, s, a).gone, j)
      ensures tag !in j.tags
    {
      var p :| p in FlowOf(c, s, a).gone && p.job == j;
      GoneWasLive(c, s, a, p);
    }
    if rs == [] {
      assert s.records + rs == s.records;
    } else {
      assert rs == [rs[0]];
      ListsAfter(s.records, rs[0], tag);
    }
  }

  ghost predicate LineageRun(c: Config, s: State, run: seq<Action>, tag: string)
    requires Legal(c, s, run)
    decreases |run|
  {
    run == [] || (Lineage(s, run[0], tag) && LineageRun(c, Apply(c, s, run[0]), run[1..], tag))
  }

  lemma {:induction false} ClosedForEver(c: Config, s: State, run: seq<Action>, tag: string)
    requires Legal(c, s, run) && Closed(s, tag) && LineageRun(c, s, run, tag)
    ensures Closed(After(c, s, run), tag) && SameOutcomes(s, After(c, s, run), tag)
    decreases |run|
  {
    if run != [] {
      ClosedStays(c, s, run[0], tag);
      ClosedGainsNothing(c, s, run[0], tag);
      ClosedForEver(c, Apply(c, s, run[0]), run[1..], tag);
    }
  }

  /* ---- The jobs first pushed carry no such tag ---- */

  ghost function OfRoot(j: Job, roots: nat): Package -> nat {
    (p: Package) => if p.job == j && p.slot < roots then 1 else 0
  }

  ghost predicate RootsClean(s: State, tag: string, roots: nat) {
    forall j: Job :: tag in j.tags ==> LiveBy(s, OfRoot(j, roots)) == 0
  }

  /** What an action adds is no root of a job with the tag. */
  lemma AddedIsNoTaggedRoot(c: Config, s: State, a: Action, tag: string, roots: nat, q: Package)
    requires Enabled(s, a) && RootsClean(s, tag, roots) && RetryLineage(s, a, tag) && roots <= s.nextSlot
    requires q in FlowOf(c, s, a).added
    ensures tag in q.job.tags ==> roots <= q.slot
  {
    var p := if a.Handle? then s.notes[0].pkg else s.futures[a.i].pkg;
    if a.Handle? && s.notes[0].Completed? {
      ChildrenJobs(c, s.notes[0].next, Some(p), s.nextSlot, q);
    } else {
      GoneCounts(c, s, a, p, OfRoot(p.job, roots));
    }
  }

  lemma RootsStayClean(c: Config, s: State, a: Action, tag: string, roots: nat)
    requires Enabled(s, a) && RootsClean(s, tag, roots) && RetryLineage(s, a, tag) && roots <= s.nextSlot
    ensures RootsClean(Apply(c, s, a), tag, roots)
  {
    forall j: Job | tag in j.tags
      ensures LiveBy(Apply(c, s, a), OfRoot(j, roots)) == 0
    {
      ActionFlow(c, s, a, OfRoot(j, roots));
      var added := FlowOf(c, s, a).added;
      SumWitness(added, OfRoot(j, roots));
      if Sum(added, OfRoot(j, roots)) > 0 {
        var i :| 0 <= i < |added| && OfRoot(j, roots)(added[i]) > 0;
        AddedIsNoTaggedRoot(c, s, a, tag, roots, added[i]);
      }
    }
  }

  lemma {:induction false} SumSplit<T>(xs: seq<T>, f: T -> nat, g: T -> nat, h: T -> nat)
    requires forall x :: f(x) == g(x) + h(x)
    ensures Sum(xs, f) == Sum(xs, g) + Sum(xs, h)
  {
    if xs != [] {
      SumSplit(xs[1..], f, g, h);
    }
  }

  lemma LiveSplits(s: State, j: Job, roots: nat)
    ensures LiveBy(s, OfJob(j)) == LiveBy(s, OfSpawned(j, roots)) + LiveBy(s, OfRoot(j, roots))
  {
    var f, g, h := OfJob(j), OfSpawned(j, roots), OfRoot(j, roots);
    SumSplit(s.prio, f, g, h);
    SumSplit(s.normal, f, g, h);
    SumSplit(s.futures, OfFuture(f), OfFuture(g), OfFuture(h));
    SumSplit(s.notes, OfNote(f), OfNote(g), OfNote(h));
  }

  ghost predicate RetryLineageRun(c: Config, s: State, run: seq<Action>, tag: string)
    requires Legal(c, s, run)
    decreases |run|
  {
    run == [] || (RetryLineage(s, run[0], tag) && RetryLineageRun(c, Apply(c, s, run[0]), run[1..], tag))
  }

  lemma {:induction false} RunKeepsRootsClean(c: Config, s: State, run: seq<Action>, tag: string, roots: nat)
    requires Legal(c, s, run) && RootsClean(s, tag, roots) && RetryLineageRun(c, s, run, tag) && roots <= s.nextSlot
    ensures RootsClean(After(c, s, run), tag, roots)
    decreases |run|
  {
    if run != [] {
      RootsStayClean(c, s, run[0], tag, roots);
      SlotsGrow(c, s, run[0]);
      RunKeepsRootsClean(c, Apply(c, s, run[0]), run[1..], tag, roots);
    }
  }

  lemma CleanKids(c: Config, jobs: seq<Job>, j: Job, roots: nat)
    requires j !in jobs
    ensures Sum(Children(c, jobs, None, 0), OfRoot(j, roots)) == 0
  {
    var kids, g := Children(c, jobs, None, 0), OfRoot(j, roots);
    SumWitness(kids, g);
    if Sum(kids, g) > 0 {
      var i :| 0 <= i < |kids| && g(kids[i]) > 0;
      ChildrenJobs(c, jobs, None, 0, kids[i]);
    }
  }

  lemma LoadedRootsClean(c: Config, jobs: seq<Job>, tag: string)
    requires forall j: Job :: j in jobs ==> tag !in j.tags
    ensures var s := Loaded(c, jobs); RootsClean(s, tag, s.nextSlot)
  {
    var s, accepted := Loaded(c, jobs), Registered(c, jobs);
    forall j: Job | tag in j.tags
      ensures LiveBy(s, OfRoot(j, s.nextSlot)) == 0
    {
      RegisteredFewer(c, jobs, j);
      CleanKids(c, accepted, j, s.nextSlot);
      LoadedLive(c, jobs, OfRoot(j, s.nextSlot));
    }
  }

  /** An empty in-progress set, seen while not cancelled, closes the tag. */
  lemma NotBusyIsClosed(s: State, roots: nat, tag: string)
    requires !s.cancelled && Tracked(s, roots) && RootsClean(s, tag, roots) && Busy(s, tag) == {}
    ensures Closed(s, tag)
  {
    BusyIsExactlyLive(s, roots, tag);
    forall j: Job | tag in j.tags
      ensures !IsLive(s, j)
    {
      LiveSplits(s, j, roots);
      assert j !in Busy(s, tag);
      assert !IsSpawned(s, j, roots);
      assert LiveBy(s, OfRoot(j, roots)) == 0;
    }
  }

  lemma LoadedListed(c: Config, jobs: seq<Job>)
    ensures Loaded(c, jobs).ended == []
    ensures OutcomesListed(Loaded(c, jobs).records, Loaded(c, jobs).ended)
  {
    PushAllShape(c, Fresh, Registered(c, jobs), None);
  }

  /** At the moment the waiter finds nothing in progress, in any uncancelled run. */
  lemma EmptyClosesAndLists(c: Config, jobs: seq<Job>, seen: seq<Action>, tag: string)
    requires (forall j :: Times(jobs, j) <= 1) && (forall j: Job :: j in jobs ==> tag !in j.tags)
    requires Legal(c, Loaded(c, jobs), seen) && OwnedRun(c, Loaded(c, jobs), seen)
    requires RetryLineageRun(c, Loaded(c, jobs), seen, tag)
    requires var s := After(c, Loaded(c, jobs), seen); !s.cancelled && Busy(s, tag) == {}
    ensures var s := After(c, Loaded(c, jobs), seen);
            Closed(s, tag) && NoEarlyDrop(s) && OutcomesListed(s.records, s.ended)
  {
    var s0 := Loaded(c, jobs);
    LoadedTracks(c, jobs);
    LoadedRootsClean(c, jobs, tag);
    RunTracks(c, s0, seen, s0.nextSlot);
    RunKeepsRootsClean(c, s0, seen, tag, s0.nextSlot);
    NotBusyIsClosed(After(c, s0, seen), s0.nextSlot, tag);
    LoadedListed(c, jobs);
    RunListed(c, s0, seen);
  }

  /**
   The waiter's guarantee. `seen` is the run up to the moment the waiter finds the tag's
   in-progress set empty, `later` is whatever happens before it reads the lists. Then no live
   package carries the tag, every slot that carried it has ended completed or failed and is in
   the lists the waiter reads, and nothing is ever added to those lists.
   */
  lemma WaiterReadsEveryOutcome(c: Config, jobs: seq<Job>, seen: seq<Action>, later: seq<Action>, tag: string)
    requires (forall j :: Times(jobs, j) <= 1) && (forall j: Job :: j in jobs ==> tag !in j.tags)
    requires Legal(c, Loaded(c, jobs), seen) && OwnedRun(c, Loaded(c, jobs), seen)
    requires RetryLineageRun(c, Loaded(c, jobs), seen, tag)
    requires var s := After(c, Loaded(c, jobs), seen);
             !s.cancelled && Busy(s, tag) == {} && Legal(c, s, later) && LineageRun(c, s, later, tag)
    ensures var s := After(c, Loaded(c, jobs), seen);
            var t := After(c, s, later);
            && Closed(t, tag)
            && SameOutcomes(s, t, tag)
            && (forall e :: e in t.ended && tag in e.job.tags ==>
                  || (e.how.AsCompleted? && e.job in CompletedUnder(t, tag))
                  || (e.how.AsFailed? && e.job in FailedUnder(t, tag)))
  {
    var s := After(c, Loaded(c, jobs), seen);
    EmptyClosesAndLists(c, jobs, seen, tag);
    ClosedForEver(c, s, later, tag);
    forall e | e in After(c, s, later).ended && tag in e.job.tags
      ensures e.how != AsCancelled && IsListed(s.records, e, tag)
    {
      assert e in s.ended;
    }
  }
}
