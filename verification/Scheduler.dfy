/**
 The job system as a transition system (src/downloader/job_system.py). One `Action` is one
 atomic thing that the main thread or one pool thread does, so a sequence of actions is one
 interleaving. What workers, `retry_job()` and `backup_job()` answer is part of the action.
 */
module Scheduler {
  import opened Prelude

  /** A Job object. `id` stands for its identity, so equal values are the same object. */
  datatype Job = Job(id: nat, typeId: nat, priority: bool, tags: set<string>)

  /**
   `slot` is bookkeeping of the model: it numbers the increments of the pending count, and
   a replacement package keeps the slot of the package it replaces.
   */
  datatype Package = Package(job: Job, tries: nat, parent: Option<Package>, slot: nat)

  /** What retry_job() or backup_job() did. */
  datatype Ask = Gave(job: Job) | GaveNone | Raised
  datatype Answer = Answer(retry: Ask, backup: Ask)

  /** A submitted package and how far its worker got. */
  datatype Phase = Submitted | Operating | Returned | Threw(abort: bool)
  datatype Future = Future(pkg: Package, phase: Phase)

  /** Entries of the notification queue. `next` is what the worker stored in next_jobs. */
  datatype Note =
    | Started(pkg: Package)
    | Completed(pkg: Package, next: seq<Job>)
    | Erred(pkg: Package)
    | Dropped(pkg: Package)

  /** Calls to the progress reporter, in order. */
  datatype Record =
    | JobStarted(job: Job)
    | JobCompleted(job: Job, next: seq<Job>)
    | JobRetried(job: Job, retry: Job)
    | JobFailed(job: Job)
    | JobsCancelled(jobs: seq<Job>)

  datatype How = AsCompleted | AsFailed | AsCancelled
  /** Bookkeeping of the model: how a slot ended. */
  datatype End = End(slot: nat, job: Job, how: How)

  datatype Config = Config(maxTries: nat, maxCycle: nat, maxThreads: nat, workers: set<nat>)

  datatype State = State(
    prio: seq<Package>,
    normal: seq<Package>,
    futures: seq<Future>,
    notes: seq<Note>,
    pending: int,
    cancelled: bool,
    drained: bool,
    jobsCancelled: seq<Job>,
    records: seq<Record>,
    nextSlot: nat,
    ended: seq<End>)

  const Fresh := State([], [], [], [], 0, false, false, [], [], 0, [])

  /* ---- Pushing ---- */

  function Enqueue(s: State, p: Package): State {
    if p.job.priority then s.(prio := s.prio + [p]) else s.(normal := s.normal + [p])
  }

  function NewPackage(job: Job, parent: Option<Package>, slot: nat): Package {
    Package(job, if parent.None? then 0 else parent.value.tries, parent, slot)
  }

  function Push(c: Config, s: State, job: Job, parent: Option<Package>): State {
    if job.typeId !in c.workers then s
    else Enqueue(s.(pending := s.pending + 1, nextSlot := s.nextSlot + 1), NewPackage(job, parent, s.nextSlot))
  }

  function PushAll(c: Config, s: State, jobs: seq<Job>, parent: Option<Package>): State
    decreases |jobs|
  {
    if jobs == [] then s else PushAll(c, Push(c, s, jobs[0], parent), jobs[1..], parent)
  }

  /** The jobs that have a worker. */
  function Accepted(c: Config, jobs: seq<Job>): seq<Job> {
    if jobs == [] then []
    else (if jobs[0].typeId in c.workers then [jobs[0]] else []) + Accepted(c, jobs[1..])
  }

  /* ---- Popping ---- */

  predicate HasQueued(s: State) { s.prio != [] || s.normal != [] }

  function Head(s: State): Package
    requires HasQueued(s)
  {
    if s.prio != [] then s.prio[0] else s.normal[0]
  }

  function Pop(s: State): State
    requires HasQueued(s)
  {
    if s.prio != [] then s.(prio := s.prio[1..]) else s.(normal := s.normal[1..])
  }

  /** Job types of the ancestors of p, nearest first. */
  function Ancestry(p: Package): seq<nat>
    decreases p
  {
    match p.parent
    case None => []
    case Some(q) => [q.job.typeId] + Ancestry(q)
  }

  /** No job type occurs more than maxCycle times among the ancestors. */
  ghost predicate NoCycles(c: Config, p: Package) {
    forall t: nat :: multiset(Ancestry(p))[t] <= c.maxCycle
  }

  /* ---- Ending and replacing ---- */

  function Finish(s: State, p: Package, how: How, rec: Record): State {
    s.(pending := s.pending - 1, records := s.records + [rec], ended := s.ended + [End(p.slot, p.job, how)])
  }

  function DropJob(s: State, p: Package): State {
    s.(jobsCancelled := s.jobsCancelled + [p.job], ended := s.ended + [End(p.slot, p.job, AsCancelled)])
  }

  /** The package that replaces p after an error, if any. */
  function Replacement(c: Config, cancelled: bool, p: Package, a: Answer): Option<Package> {
    if cancelled then None
    else if p.tries < c.maxTries && a.retry.Gave? then
      if a.retry.job.typeId in c.workers then Some(Package(a.retry.job, p.tries + 1, None, p.slot)) else None
    else if a.backup.Gave? && a.backup.job.typeId in c.workers then
      Some(Package(a.backup.job, 0, None, p.slot))
    else None
  }

  function HandleError(c: Config, s: State, p: Package, a: Answer): State {
    match Replacement(c, s.cancelled, p, a)
    case None => Finish(s, p, AsFailed, JobFailed(p.job))
    case Some(q) => Enqueue(s, q).(records := s.records + [JobRetried(p.job, q.job)])
  }

  function HandleRaised(c: Config, s: State, p: Package, abort: bool, a: Answer): State {
    if abort then Finish(s, p, AsFailed, JobFailed(p.job)) else HandleError(c, s, p, a)
  }

  function HandleNote(c: Config, s: State, n: Note, a: Answer): State {
    match n
    case Erred(p) => HandleError(c, s, p, a)
    case Completed(p, next) =>
      if s.cancelled then Finish(s, p, AsCompleted, JobCompleted(p.job, []))
      else Finish(PushAll(c, s, next, Some(p)), p, AsCompleted, JobCompleted(p.job, Accepted(c, next)))
    case Started(p) => s.(records := s.records + [JobStarted(p.job)])
    case Dropped(p) => DropJob(s, p)
  }

  function DropAll(s: State, ps: seq<Package>): State
    decreases |ps|
  {
    if ps == [] then s else DropAll(DropJob(s, ps[0]), ps[1..])
  }

  /** The tail of a run: what is still queued counts as cancelled, and the reporter is told. */
  function Drain(s: State): State {
    var t := DropAll(s, s.prio + s.normal).(prio := [], normal := [], drained := true);
    if t.jobsCancelled == [] then t else t.(records := t.records + [JobsCancelled(t.jobsCancelled)])
  }

  /* ---- Actions ---- */

  datatype Action =
    | Submit
    | Begin(i: nat)
    | Return(i: nat, next: seq<Job>)
    | ReturnError(i: nat)
    | Throw(i: nat, abort: bool)
    | Handle(answer: Answer)
    | Reap(i: nat, answer: Answer)
    | Cancel
    | CancelFuture(i: nat)
    | DrainQueues

  predicate At(s: State, i: nat, ph: Phase) { i < |s.futures| && s.futures[i].phase == ph }

  /** The main loop runs `while (pending > 0 or futures) and not cancelled`. */
  predicate LoopLeft(s: State) { s.cancelled || (s.pending <= 0 && s.futures == []) }

  predicate Enabled(s: State, a: Action) {
    match a
    case Submit => HasQueued(s)
    case Begin(i) => At(s, i, Submitted)
    case Return(i, _) => At(s, i, Operating)
    case ReturnError(i) => At(s, i, Operating)
    case Throw(i, _) => At(s, i, Operating)
    case Handle(_) => s.notes != []
    case Reap(i, _) => i < |s.futures| && (s.futures[i].phase.Returned? || s.futures[i].phase.Threw?)
    case Cancel => !s.cancelled
    case CancelFuture(i) => s.cancelled && i < |s.futures| && !s.futures[i].phase.Operating?
    case DrainQueues => LoopLeft(s) && !s.drained
  }

  function SetPhase(s: State, i: nat, ph: Phase, n: seq<Note>): State
    requires i < |s.futures|
  {
    s.(futures := s.futures[i := s.futures[i].(phase := ph)], notes := s.notes + n)
  }

  function RemoveFuture(s: State, i: nat): State
    requires i < |s.futures|
  {
    s.(futures := RemoveAt(s.futures, i))
  }

  ghost function SubmitNext(c: Config, s: State): State
    requires HasQueued(s)
  {
    var p := Head(s);
    if NoCycles(c, p) then Pop(s).(futures := s.futures + [Future(p, Submitted)])
    else Finish(Pop(s), p, AsFailed, JobFailed(p.job))
  }

  function BeginAt(s: State, i: nat): State
    requires i < |s.futures|
  {
    var p := s.futures[i].pkg;
    if s.cancelled then SetPhase(s, i, Returned, [Dropped(p)]) else SetPhase(s, i, Operating, [Started(p)])
  }

  function ReapAt(c: Config, s: State, i: nat, a: Answer): State
    requires i < |s.futures|
  {
    var f := s.futures[i];
    if f.phase.Threw? then HandleRaised(c, RemoveFuture(s, i), f.pkg, f.phase.abort, a) else RemoveFuture(s, i)
  }

  function CancelFutureAt(s: State, i: nat): State
    requires i < |s.futures|
  {
    var f := s.futures[i];
    match f.phase
    case Submitted => DropJob(RemoveFuture(s, i), f.pkg)
    case Threw(_) => Finish(RemoveFuture(s, i), f.pkg, AsFailed, JobFailed(f.pkg.job))
    case _ => RemoveFuture(s, i)
  }

  ghost function Apply(c: Config, s: State, a: Action): State
    requires Enabled(s, a)
  {
    match a
    case Submit => SubmitNext(c, s)
    case Begin(i) => BeginAt(s, i)
    case Return(i, next) => SetPhase(s, i, Returned, [Completed(s.futures[i].pkg, next)])
    case ReturnError(i) => SetPhase(s, i, Returned, [Erred(s.futures[i].pkg)])
    case Throw(i, abort) => SetPhase(s, i, Threw(abort), [])
    case Handle(answer) => HandleNote(c, s.(notes := s.notes[1..]), s.notes[0], answer)
    case Reap(i, answer) => ReapAt(c, s, i, answer)
    case Cancel => s.(cancelled := true)
    case CancelFuture(i) => CancelFutureAt(s, i)
    case DrainQueues => Drain(s)
  }

  /** Every action of the run is enabled where it happens. */
  ghost predicate Legal(c: Config, s: State, run: seq<Action>)
    decreases |run|
  {
    run == [] || (Enabled(s, run[0]) && Legal(c, Apply(c, s, run[0]), run[1..]))
  }

  ghost function After(c: Config, s: State, run: seq<Action>): State
    requires Legal(c, s, run)
    decreases |run|
  {
    if run == [] then s else After(c, Apply(c, s, run[0]), run[1..])
  }

  lemma {:induction false} RunsCompose(c: Config, s: State, xs: seq<Action>, ys: seq<Action>)
    requires Legal(c, s, xs) && Legal(c, After(c, s, xs), ys)
    ensures Legal(c, s, xs + ys) && After(c, s, xs + ys) == After(c, After(c, s, xs), ys)
    decreases |xs|
  {
    if xs == [] {
      assert xs + ys == ys;
    } else {
      assert (xs + ys)[1..] == xs[1..] + ys;
      RunsCompose(c, Apply(c, s, xs[0]), xs[1..], ys);
    }
  }

  /** The jobs before the first one without a worker. */
  function Registered(c: Config, jobs: seq<Job>): seq<Job> {
    if jobs == [] || jobs[0].typeId !in c.workers then [] else [jobs[0]] + Registered(c, jobs[1..])
  }

  /** push_jobs on a new job system: no parents, and it raises at the first job without a worker. */
  function Loaded(c: Config, jobs: seq<Job>): State {
    PushAll(c, Fresh, Registered(c, jobs), None)
  }
}
