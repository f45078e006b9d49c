/**
 How packages end (src/downloader/job_system.py:180-368): what an error leads to, and, over any
 run, why a package completed, failed or was cancelled.
 */
module Outcomes {
  import opened Prelude
  import opened Scheduler
  import opened Conservation

  /* ---- One error ---- */

  /** Tries are left, and the job gave itself again. */
  predicate GivesRetry(c: Config, p: Package, a: Answer) { p.tries < c.maxTries && a.retry.Gave? }

  predicate IsRetried(c: Config, p: Package, a: Answer) { GivesRetry(c, p, a) && a.retry.job.typeId in c.workers }

  predicate IsBackedUp(c: Config, p: Package, a: Answer) {
    !GivesRetry(c, p, a) && a.backup.Gave? && a.backup.job.typeId in c.workers
  }

  /** There is no way on: the run is being cancelled, or neither the retry nor the backup can run. */
  predicate IsLost(c: Config, cancelled: bool, p: Package, a: Answer) {
    cancelled || (!IsRetried(c, p, a) && !IsBackedUp(c, p, a))
  }

  /** The package is queued last among those of its priority. */
  ghost predicate Queues(s: State, t: State, q: Package) {
    && t.prio == s.prio + (if q.job.priority then [q] else [])
    && t.normal == s.normal + (if q.job.priority then [] else [q])
  }

  /** Nothing ends, and nothing else happens. */
  ghost predicate NothingEnds(s: State, t: State) {
    && t.pending == s.pending && t.ended == s.ended && t.futures == s.futures && t.notes == s.notes
    && t.jobsCancelled == s.jobsCancelled && t.nextSlot == s.nextSlot
    && t.cancelled == s.cancelled && t.drained == s.drained
  }

  /**
   An error is answered by exactly the retry, with one more try, or else by the backup, which
   starts anew, or it is final.
   */
  lemma ErrorOutcome(c: Config, s: State, p: Package, a: Answer)
    ensures var t := HandleError(c, s, p, a);
            && (!s.cancelled && IsRetried(c, p, a) ==>
                  && Queues(s, t, Package(a.retry.job, p.tries + 1, None, p.slot)) && NothingEnds(s, t)
                  && t.records == s.records + [JobRetried(p.job, a.retry.job)])
            && (!s.cancelled && IsBackedUp(c, p, a) ==>
                  && Queues(s, t, Package(a.backup.job, 0, None, p.slot)) && NothingEnds(s, t)
                  && t.records == s.records + [JobRetried(p.job, a.backup.job)])
            && (IsLost(c, s.cancelled, p, a) ==>
                  && t.prio == s.prio && t.normal == s.normal && t.pending == s.pending - 1
                  && t.ended == s.ended + [End(p.slot, p.job, AsFailed)] && t.records == s.records + [JobFailed(p.job)])
  {
  }

  /* ---- One completion ---- */

  function HasWorker(c: Config): Job -> bool { (j: Job) => j.typeId in c.workers }

  /** The children are the jobs that have a worker, in order, with their parent's tries and new slots. */
  lemma {:induction false} ChildrenAre(c: Config, jobs: seq<Job>, parent: Package, slot: nat)
    ensures var kids, accepted := Children(c, jobs, Some(parent), slot), Keep(jobs, HasWorker(c));
            && |kids| == |accepted|
            && forall i :: 0 <= i < |kids| ==> kids[i] == Package(accepted[i], parent.tries, Some(parent), slot + i)
  {
    if jobs != [] {
      ChildrenAre(c, jobs[1..], parent, if jobs[0].typeId in c.workers then slot + 1 else slot);
    }
  }

  lemma {:induction false} AcceptedAre(c: Config, jobs: seq<Job>)
    ensures Accepted(c, jobs) == Keep(jobs, HasWorker(c))
  {
    if jobs != [] {
      AcceptedAre(c, jobs[1..]);
    }
  }

  function WithPrio(priority: bool): Package -> bool { (p: Package) => p.job.priority == priority }

  lemma {:induction false} WithPriorityIs(ps: seq<Package>, priority: bool)
    ensures WithPriority(ps, priority) == Keep(ps, WithPrio(priority))
  {
    if ps != [] {
      WithPriorityIs(ps[1..], priority);
    }
  }

  /**
   A completion ends its slot and is reported with the children that have a worker. These are
   queued in order, each last among those of its priority, unless the run is being cancelled.
   */
  lemma CompletionOutcome(c: Config, s: State, p: Package, next: seq<Job>, a: Answer) returns (kids: seq<Package>)
    ensures var t, accepted := HandleNote(c, s, Completed(p, next), a), if s.cancelled then [] else Keep(next, HasWorker(c));
            && |kids| == |accepted|
            && (forall i :: 0 <= i < |kids| ==> kids[i] == Package(accepted[i], p.tries, Some(p), s.nextSlot + i))
            && t.prio == s.prio + Keep(kids, WithPrio(true)) && t.normal == s.normal + Keep(kids, WithPrio(false))
            && t.pending == s.pending + |kids| - 1 && t.ended == s.ended + [End(p.slot, p.job, AsCompleted)]
            && t.records == s.records + [JobCompleted(p.job, accepted)]
  {
    kids := if s.cancelled then [] else Children(c, next, Some(p), s.nextSlot);
    ChildrenAre(c, next, p, s.nextSlot);
    AcceptedAre(c, next);
    PushAllShape(c, s, next, Some(p));
    PushAllQueues(c, s, next, Some(p), true);
    PushAllQueues(c, s, next, Some(p), false);
    WithPriorityIs(kids, true);
    WithPriorityIs(kids, false);
  }

  /* ---- The queues ---- */

  /** How many ancestors of p have the type. */
  function AncestorsOf(p: Package, t: nat): nat
    decreases p
  {
    match p.parent
    case None => 0
    case Some(q) => (if q.job.typeId == t then 1 else 0) + AncestorsOf(q, t)
  }

  lemma {:induction false} AncestorsCounted(p: Package, t: nat)
    ensures multiset(Ancestry(p))[t] == AncestorsOf(p, t)
    decreases p
  {
    if p.parent.Some? {
      var q := p.parent.value;
      AncestorsCounted(q, t);
      assert Ancestry(p) == [q.job.typeId] + Ancestry(q);
    }
  }

  /** A package is accepted exactly when no type occurs more often among its ancestors than allowed. */
  lemma AcceptedIff(c: Config, p: Package)
    ensures NoCycles(c, p) <==> forall t :: AncestorsOf(p, t) <= c.maxCycle
  {
    if NoCycles(c, p) {
      forall t ensures AncestorsOf(p, t) <= c.maxCycle { AncestorsCounted(p, t); }
    } else {
      var t: nat :| multiset(Ancestry(p))[t] > c.maxCycle;
      AncestorsCounted(p, t);
    }
  }

  /** What is submitted next is the first of the priority queue, or else of the other one; a rejected package fails. */
  lemma SubmitTakesTheFirst(c: Config, s: State)
    requires HasQueued(s)
    ensures var t, queued := Apply(c, s, Submit), s.prio + s.normal;
            && queued == [queued[0]] + (t.prio + t.normal)
            && (if NoCycles(c, queued[0]) then t.futures == s.futures + [Future(queued[0], Submitted)] && t.ended == s.ended
                else t.futures == s.futures && t.ended == s.ended + [End(queued[0].slot, queued[0].job, AsFailed)])
  {
  }

  /* ---- Why a package ended ---- */

  predicate Of(e: End, p: Package) { e.slot == p.slot && e.job == p.job }

  predicate CompletesIn(s: State, a: Action, e: End) {
    a.Handle? && s.notes != [] && s.notes[0].Completed? && Of(e, s.notes[0].pkg)
  }

  /** Rejected by the ancestor check; or an error without a way on; or an exception that is an abort or has no way on. */
  ghost predicate FailsIn(c: Config, s: State, a: Action, e: End) {
    match a
    case Submit => HasQueued(s) && var p := (s.prio + s.normal)[0]; Of(e, p) && !NoCycles(c, p)
    case Handle(answer) => s.notes != [] && s.notes[0].Erred? && Of(e, s.notes[0].pkg) && IsLost(c, s.cancelled, s.notes[0].pkg, answer)
    case Reap(i, answer) =>
      && i < |s.futures| && s.futures[i].phase.Threw? && Of(e, s.futures[i].pkg)
      && (s.futures[i].phase.abort || IsLost(c, s.cancelled, s.futures[i].pkg, answer))
    case CancelFuture(i) => s.cancelled && i < |s.futures| && s.futures[i].phase.Threw? && Of(e, s.futures[i].pkg)
    case _ => false
  }

  /** Dropped by a pool thread, not started at the end of a cancelled run, or still queued when the loop was left. */
  predicate CancelledIn(s: State, a: Action, e: End) {
    match a
    case Handle(_) => s.notes != [] && s.notes[0].Dropped? && Of(e, s.notes[0].pkg)
    case CancelFuture(i) => i < |s.futures| && s.futures[i].phase.Submitted? && Of(e, s.futures[i].pkg)
    case DrainQueues => exists p :: p in s.prio + s.normal && Of(e, p)
    case _ => false
  }

  ghost predicate EndsIn(c: Config, s: State, a: Action, e: End) {
    match e.how
    case AsCompleted => CompletesIn(s, a, e)
    case AsFailed => FailsIn(c, s, a, e)
    case AsCancelled => CancelledIn(s, a, e)
  }

  /** The slots that a step ends: those after the ones that had ended before. */
  ghost predicate EndsExactly(c: Config, s: State, a: Action, t: State) {
    s.ended <= t.ended && forall e :: e in t.ended[|s.ended|..] <==> EndsIn(c, s, a, e)
  }

  lemma EndsNone(c: Config, s: State, a: Action, t: State)
    requires t.ended == s.ended && forall e :: !EndsIn(c, s, a, e)
    ensures EndsExactly(c, s, a, t)
  {
    assert t.ended[|s.ended|..] == [];
  }

  lemma EndsOne(c: Config, s: State, a: Action, t: State, p: Package, how: How)
    requires t.ended == s.ended + [End(p.slot, p.job, how)]
    requires forall e :: EndsIn(c, s, a, e) <==> Of(e, p) && e.how == how
    ensures EndsExactly(c, s, a, t)
  {
    assert t.ended[|s.ended|..] == [End(p.slot, p.job, how)];
  }

  lemma EndsOfHandle(c: Config, s: State, answer: Answer)
    requires s.notes != []
    ensures EndsExactly(c, s, Handle(answer), Apply(c, s, Handle(answer)))
  {
    var a, u, n := Handle(answer), s.(notes := s.notes[1..]), s.notes[0];
    var t := Apply(c, s, a);
    match n
    case Erred(p) =>
      ErrorOutcome(c, u, p, answer);
      if IsLost(c, s.cancelled, p, answer) { EndsOne(c, s, a, t, p, AsFailed); } else { EndsNone(c, s, a, t); }
    case Completed(p, next) =>
      PushAllShape(c, u, next, Some(p));
      EndsOne(c, s, a, t, p, AsCompleted);
    case Started(p) => EndsNone(c, s, a, t);
    case Dropped(p) => EndsOne(c, s, a, t, p, AsCancelled);
  }

  lemma EndsOfReap(c: Config, s: State, i: nat, answer: Answer)
    requires Enabled(s, Reap(i, answer))
    ensures EndsExactly(c, s, Reap(i, answer), Apply(c, s, Reap(i, answer)))
  {
    var a, f := Reap(i, answer), s.futures[i];
    var t := Apply(c, s, a);
    ErrorOutcome(c, RemoveFuture(s, i), f.pkg, answer);
    if f.phase.Threw? && (f.phase.abort || IsLost(c, s.cancelled, f.pkg, answer)) {
      EndsOne(c, s, a, t, f.pkg, AsFailed);
    } else {
      EndsNone(c, s, a, t);
    }
  }

  lemma EndsOfCancelFuture(c: Config, s: State, i: nat)
    requires Enabled(s, CancelFuture(i))
    ensures EndsExactly(c, s, CancelFuture(i), Apply(c, s, CancelFuture(i)))
  {
    var a, f := CancelFuture(i), s.futures[i];
    var t := Apply(c, s, a);
    match f.phase
    case Submitted => EndsOne(c, s, a, t, f.pkg, AsCancelled);
    case Threw(_) => EndsOne(c, s, a, t, f.pkg, AsFailed);
    case _ => EndsNone(c, s, a, t);
  }

  lemma EndsOfDrain(c: Config, s: State)
    ensures EndsExactly(c, s, DrainQueues, Drain(s))
  {
    var ps, t := s.prio + s.normal, Drain(s);
    DropAllShape(s, ps);
    var more := t.ended[|s.ended|..];
    assert |more| == |ps| && forall i :: 0 <= i < |ps| ==> more[i] == End(ps[i].slot, ps[i].job, AsCancelled);
    forall e
      ensures e in more <==> EndsIn(c, s, DrainQueues, e)
    {
      if e in more {
        var i :| 0 <= i < |more| && more[i] == e;
        assert ps[i] in ps && Of(e, ps[i]);
      }
      if EndsIn(c, s, DrainQueues, e) {
        var p :| p in ps && Of(e, p);
        var i :| 0 <= i < |ps| && ps[i] == p;
        assert more[i] == e;
      }
    }
  }

  /** Each step ends exactly what it has a reason to end. */
  lemma StepEnds(c: Config, s: State, a: Action)
    requires Enabled(s, a)
    ensures EndsExactly(c, s, a, Apply(c, s, a))
  {
    match a
    case Submit =>
      SubmitTakesTheFirst(c, s);
      var p := (s.prio + s.normal)[0];
      if NoCycles(c, p) { EndsNone(c, s, a, Apply(c, s, a)); } else { EndsOne(c, s, a, Apply(c, s, a), p, AsFailed); }
    case Handle(answer) => EndsOfHandle(c, s, answer);
    case Reap(i, answer) => EndsOfReap(c, s, i, answer);
    case CancelFuture(i) => EndsOfCancelFuture(c, s, i);
    case DrainQueues => EndsOfDrain(c, s);
    case _ => EndsNone(c, s, a, Apply(c, s, a));
  }

  /* ---- Over runs ---- */

  /** At some step of the run the slot had a reason to end so. */
  ghost predicate HasReason(c: Config, s: State, run: seq<Action>, e: End)
    requires Legal(c, s, run)
    decreases |run|
  {
    run != [] && (EndsIn(c, s, run[0], e) || HasReason(c, Apply(c, s, run[0]), run[1..], e))
  }

  /**
   Over any run, whatever the workers and jobs answer: a slot ends as completed, failed or
   cancelled exactly when some step has the reason for it. In particular a failure is a rejection
   by the ancestor check, an abort, or an error or exception without a way on.
   */
  lemma {:induction false} EndsIffReason(c: Config, s: State, run: seq<Action>)
    requires Legal(c, s, run)
    ensures var t := After(c, s, run); s.ended <= t.ended && forall e :: e in t.ended[|s.ended|..] <==> HasReason(c, s, run, e)
    decreases |run|
  {
    if run == [] {
      assert s.ended[|s.ended|..] == [];
    } else {
      var u := Apply(c, s, run[0]);
      StepEnds(c, s, run[0]);
      EndsIffReason(c, u, run[1..]);
      var t := After(c, u, run[1..]);
      assert t.ended[|s.ended|..] == u.ended[|s.ended|..] + t.ended[|u.ended|..];
    }
  }

  /* ---- The list of cancelled jobs ---- */

  /** The jobs of the slots that ended as cancelled, in that order. */
  function CancelledJobs(ended: seq<End>): seq<Job> {
    if ended == [] then []
    else
      var last := ended[|ended| - 1];
      CancelledJobs(ended[..|ended| - 1]) + if last.how.AsCancelled? then [last.job] else []
  }

  lemma CancelledJobsPush(ended: seq<End>, e: End)
    ensures CancelledJobs(ended + [e]) == CancelledJobs(ended) + if e.how.AsCancelled? then [e.job] else []
  {
    assert (ended + [e])[..|ended|] == ended;
  }

  ghost predicate ListsCancelled(s: State) { s.jobsCancelled == CancelledJobs(s.ended) }

  lemma EndedOneKeepsList(s: State, t: State, p: Package, how: How)
    requires ListsCancelled(s) && t.ended == s.ended + [End(p.slot, p.job, how)]
    requires t.jobsCancelled == if how.AsCancelled? then s.jobsCancelled + [p.job] else s.jobsCancelled
    ensures ListsCancelled(t)
  {
    CancelledJobsPush(s.ended, End(p.slot, p.job, how));
  }

  lemma {:induction false} DropAllKeepsList(s: State, ps: seq<Package>)
    requires ListsCancelled(s)
    ensures ListsCancelled(DropAll(s, ps))
    decreases |ps|
  {
    if ps != [] {
      EndedOneKeepsList(s, DropJob(s, ps[0]), ps[0], AsCancelled);
      DropAllKeepsList(DropJob(s, ps[0]), ps[1..]);
    }
  }

  lemma HandleKeepsList(c: Config, s: State, answer: Answer)
    requires s.notes != [] && ListsCancelled(s)
    ensures ListsCancelled(Apply(c, s, Handle(answer)))
  {
    var u, n := s.(notes := s.notes[1..]), s.notes[0];
    var t := Apply(c, s, Handle(answer));
    match n
    case Erred(p) => if IsLost(c, s.cancelled, p, answer) { EndedOneKeepsList(u, t, p, AsFailed); }
    case Completed(p, next) =>
      PushAllShape(c, u, next, Some(p));
      EndedOneKeepsList(u, t, p, AsCompleted);
    case Started(p) =>
    case Dropped(p) => EndedOneKeepsList(u, t, p, AsCancelled);
  }

  lemma StepKeepsList(c: Config, s: State, a: Action)
    requires Enabled(s, a) && ListsCancelled(s)
    ensures ListsCancelled(Apply(c, s, a))
  {
    var t := Apply(c, s, a);
    match a
    case Submit => if t.ended != s.ended { EndedOneKeepsList(s, t, Head(s), AsFailed); }
    case Handle(answer) => HandleKeepsList(c, s, answer);
    case Reap(i, answer) => if t.ended != s.ended { EndedOneKeepsList(s, t, s.futures[i].pkg, AsFailed); }
    case CancelFuture(i) =>
      var f := s.futures[i];
      match f.phase {
        case Submitted => EndedOneKeepsList(s, t, f.pkg, AsCancelled);
        case Threw(_) => EndedOneKeepsList(s, t, f.pkg, AsFailed);
        case _ =>
      }
    case DrainQueues => DropAllKeepsList(s, s.prio + s.normal);
    case _ =>
  }

  /** Over any run the list of cancelled jobs is that of the cancelled slots, in the order in which they ended. */
  lemma {:induction false} CancelledAreListed(c: Config, s: State, run: seq<Action>)
    requires Legal(c, s, run) && ListsCancelled(s)
    ensures ListsCancelled(After(c, s, run))
    decreases |run|
  {
    if run != [] {
      StepKeepsList(c, s, run[0]);
      CancelledAreListed(c, Apply(c, s, run[0]), run[1..]);
    }
  }

  /** What is pushed from outside are the jobs before the first one without a worker. */
  lemma {:induction false} RegisteredAreTheFirst(c: Config, jobs: seq<Job>)
    ensures var n := |Registered(c, jobs)|;
            && n <= |jobs| && Registered(c, jobs) == jobs[..n] && (forall i :: 0 <= i < n ==> jobs[i].typeId in c.workers)
            && (n < |jobs| ==> jobs[n].typeId !in c.workers)
  {
    if jobs != [] && jobs[0].typeId in c.workers {
      RegisteredAreTheFirst(c, jobs[1..]);
    }
  }

  /* ---- What workers said ---- */

  /** What a pool thread posts: a start, or the drop of a cancelled run; what the worker returned. */
  function Posted(s: State, a: Action): seq<Note> {
    match a
    case Begin(i) =>
      if i < |s.futures| then [if s.cancelled then Dropped(s.futures[i].pkg) else Started(s.futures[i].pkg)] else []
    case Return(i, next) => if i < |s.futures| then [Completed(s.futures[i].pkg, next)] else []
    case ReturnError(i) => if i < |s.futures| then [Erred(s.futures[i].pkg)] else []
    case _ => []
  }

  ghost predicate WasPosted(c: Config, s: State, run: seq<Action>, n: Note)
    requires Legal(c, s, run)
    decreases |run|
  {
    run != [] && (n in Posted(s, run[0]) || WasPosted(c, Apply(c, s, run[0]), run[1..], n))
  }

  lemma StepPosts(c: Config, s: State, a: Action)
    requires Enabled(s, a)
    ensures Apply(c, s, a).notes == if a.Handle? then s.notes[1..] else s.notes + Posted(s, a)
  {
    if a.DrainQueues? {
      DropAllShape(s, s.prio + s.normal);
    } else if a.Handle? && s.notes[0].Completed? && !s.cancelled {
      PushAllShape(c, s.(notes := s.notes[1..]), s.notes[0].next, Some(s.notes[0].pkg));
    }
  }

  /** The notification was there before, or a pool thread posted it during the run. */
  ghost predicate IsSaid(c: Config, s: State, run: seq<Action>, n: Note)
    requires Legal(c, s, run)
  {
    n in s.notes || WasPosted(c, s, run, n)
  }

  ghost predicate SaidDone(c: Config, s: State, run: seq<Action>, e: End)
    requires Legal(c, s, run)
  {
    exists n: Note :: n.Completed? && Of(e, n.pkg) && IsSaid(c, s, run, n)
  }

  lemma {:induction false} NotesWereSaid(c: Config, s: State, run: seq<Action>)
    requires Legal(c, s, run)
    ensures forall n :: n in After(c, s, run).notes ==> IsSaid(c, s, run, n)
    decreases |run|
  {
    if run != [] {
      StepPosts(c, s, run[0]);
      NotesWereSaid(c, Apply(c, s, run[0]), run[1..]);
    }
  }

  /** Only a package whose worker came back without an error completes. */
  lemma {:induction false} CompletedWasSaid(c: Config, s: State, run: seq<Action>, e: End)
    requires Legal(c, s, run) && HasReason(c, s, run, e) && e.how.AsCompleted?
    ensures SaidDone(c, s, run, e)
    decreases |run|
  {
    if !EndsIn(c, s, run[0], e) {
      var u := Apply(c, s, run[0]);
      StepPosts(c, s, run[0]);
      CompletedWasSaid(c, u, run[1..], e);
      var n: Note :| n.Completed? && Of(e, n.pkg) && IsSaid(c, u, run[1..], n);
      assert IsSaid(c, s, run, n);
    } else {
      assert IsSaid(c, s, run, s.notes[0]);
    }
  }
}
