/**
 The job system's own code: queues, counters and loops that change in place. Each method is
 tied to the transition system of module Scheduler: what it did is a sequence of actions that
 are legal there, so every law proved about runs holds of this code.
 */
module JobSystem {
  import opened Prelude
  import opened Scheduler
  import opened Conservation
  import opened Outcomes

  /** The types along the chain that starts at o. */
  function Chain(o: Option<Package>): seq<nat> {
    if o.None? then [] else [o.value.job.typeId] + Ancestry(o.value)
  }

  lemma ChainStep(q: Package)
    ensures multiset(Chain(Some(q))) == multiset{q.job.typeId} + multiset(Chain(q.parent))
    ensures |Chain(q.parent)| < |Chain(Some(q))|
  {
  }

  function Seen(seen: map<nat, nat>, t: nat): nat { if t in seen then seen[t] else 0 }

  /** What others than the main thread do: a pool thread starts, comes back or raises, or someone cancels. */
  datatype Move = GoAhead(i: nat) | ComeBack(i: nat, result: Option<seq<Job>>) | GiveUp(i: nat, abort: bool) | CancelAll

  /** How a worker that is waited for ends. */
  datatype Ending = Back(result: Option<seq<Job>>) | Raises(abort: bool)

  function EndOfFirst(e: Ending): Move { match e case Back(result) => ComeBack(0, result) case Raises(abort) => GiveUp(0, abort) }

  function ActionOf(m: Move): Action {
    match m
    case GoAhead(i) => Begin(i)
    case ComeBack(i, result) => if result.Some? then Return(i, result.value) else ReturnError(i)
    case GiveUp(i, abort) => Throw(i, abort)
    case CancelAll => Cancel
  }

  /** When blocking, all handled notifications are starts, except possibly the last few. */
  predicate StartsBut(handled: seq<Note>, block: bool, last: nat) {
    block ==> forall i :: 0 <= i < |handled| - last ==> handled[i].Started?
  }

  lemma StartsButOne(handled: seq<Note>, note: Note, block: bool)
    requires StartsBut(handled, block, 0)
    ensures StartsBut(handled + [note], block, 1) && (note.Started? ==> StartsBut(handled + [note], block, 0))
  {
  }

  /** First come, first handled. */
  ghost predicate InOrder(handled: seq<Note>, queue: seq<Note>, first: seq<Note>, arrived: seq<Note>) { handled + queue == first + arrived }

  lemma InOrderArrived(handled: seq<Note>, queue: seq<Note>, first: seq<Note>, arrived: seq<Note>, posted: seq<Note>)
    requires InOrder(handled, queue, first, arrived)
    ensures InOrder(handled, queue + posted, first, arrived + posted)
  {
    assert handled + (queue + posted) == (handled + queue) + posted;
    assert (first + arrived) + posted == first + (arrived + posted);
  }

  lemma InOrderHandled(handled: seq<Note>, note: Note, queue: seq<Note>, first: seq<Note>, arrived: seq<Note>)
    requires InOrder(handled, [note] + queue, first, arrived)
    ensures InOrder(handled + [note], queue, first, arrived)
  {
    assert handled + ([note] + queue) == (handled + [note]) + queue;
  }

  predicate EndsWait(handled: seq<Note>, block: bool) { block && handled != [] && !handled[|handled| - 1].Started? }

  predicate ByOthers(a: Action) { a.Begin? || a.Return? || a.ReturnError? || a.Throw? || a.Cancel? }

  class JobSystem {
    const c: Config
    var priorityJobQueue: seq<Package>
    var normalJobQueue: seq<Package>
    var futures: seq<Future>
    var notifications: seq<Note>
    var pendingJobsAmount: int
    var areJobsCancelled: bool
    var drained: bool
    var jobsCancelled: seq<Job>
    var records: seq<Record>
    var nextSlot: nat
    ghost var ended: seq<End>

    constructor (config: Config)
      ensures View() == Fresh && c == config
    {
      c := config;
      priorityJobQueue, normalJobQueue, futures, notifications := [], [], [], [];
      pendingJobsAmount, areJobsCancelled, drained, jobsCancelled := 0, false, false, [];
      records, nextSlot, ended := [], 0, [];
    }

    ghost function View(): State
      reads this
    {
      State(priorityJobQueue, normalJobQueue, futures, notifications, pendingJobsAmount, areJobsCancelled,
            drained, jobsCancelled, records, nextSlot, ended)
    }

    /* ---- Queues ---- */

    method QueuePackage(p: Package)
      modifies this`priorityJobQueue, this`normalJobQueue
      ensures View() == Enqueue(old(View()), p)
    {
      if p.job.priority {
        priorityJobQueue := priorityJobQueue + [p];
      } else {
        normalJobQueue := normalJobQueue + [p];
      }
    }

    method PopPackage() returns (p: Option<Package>)
      modifies this`priorityJobQueue, this`normalJobQueue
      ensures p.None? <==> !HasQueued(old(View()))
      ensures p.Some? ==> p.value == Head(old(View())) && View() == Pop(old(View()))
      ensures p.None? ==> View() == old(View())
    {
      if priorityJobQueue != [] {
        p := Some(priorityJobQueue[0]);
        priorityJobQueue := priorityJobQueue[1..];
      } else if normalJobQueue != [] {
        p := Some(normalJobQueue[0]);
        normalJobQueue := normalJobQueue[1..];
      } else {
        p := None;
      }
    }

    method InternalPushJob(job: Job, parent: Option<Package>) returns (ok: bool)
      modifies this
      ensures ok <==> job.typeId in c.workers
      ensures View() == Push(c, old(View()), job, parent)
    {
      if job.typeId !in c.workers {
        return false;
      }
      var p := Package(job, if parent.None? then 0 else parent.value.tries, parent, nextSlot);
      QueuePackage(p);
      pendingJobsAmount := pendingJobsAmount + 1;
      nextSlot := nextSlot + 1;
      ok := true;
    }

    /** Pushes until the first job without a worker, which is reported to the caller. */
    method PushJobs(jobs: seq<Job>) returns (ok: bool)
      modifies this
      ensures ok <==> Registered(c, jobs) == jobs
      ensures View() == PushAll(c, old(View()), Registered(c, jobs), None)
    {
      ok := true;
      var i := 0;
      while i < |jobs| && ok
        invariant 0 <= i <= |jobs|
        invariant ok ==>
                    (PushAll(c, View(), Registered(c, jobs[i..]), None) == PushAll(c, old(View()), Registered(c, jobs), None))
        invariant ok ==> (Registered(c, jobs[i..]) == jobs[i..] <==> Registered(c, jobs) == jobs)
        invariant !ok ==> View() == PushAll(c, old(View()), Registered(c, jobs), None) && Registered(c, jobs) != jobs
        decreases |jobs| - i, ok
      {
        assert jobs[i..] == [jobs[i]] + jobs[i + 1..];
        ok := InternalPushJob(jobs[i], None);
        if ok {
          assert Registered(c, jobs[i..]) == [jobs[i]] + Registered(c, jobs[i + 1..]);
          assert Registered(c, jobs[i..])[1..] == Registered(c, jobs[i + 1..]);
          i := i + 1;
        }
      }
    }

    /* ---- Reports ---- */

    method RecordJobFailed(p: Package)
      modifies this`pendingJobsAmount, this`records, this`ended
      ensures View() == Finish(old(View()), p, AsFailed, JobFailed(p.job))
    {
      pendingJobsAmount := pendingJobsAmount - 1;
      records := records + [JobFailed(p.job)];
      ended := ended + [End(p.slot, p.job, AsFailed)];
    }

    method RecordJobCompleted(p: Package, next: seq<Job>)
      modifies this`pendingJobsAmount, this`records, this`ended
      ensures View() == Finish(old(View()), p, AsCompleted, JobCompleted(p.job, next))
    {
      pendingJobsAmount := pendingJobsAmount - 1;
      records := records + [JobCompleted(p.job, next)];
      ended := ended + [End(p.slot, p.job, AsCompleted)];
    }

    method CancelJob(p: Package)
      modifies this`jobsCancelled, this`ended
      ensures View() == DropJob(old(View()), p)
    {
      jobsCancelled := jobsCancelled + [p.job];
      ended := ended + [End(p.slot, p.job, AsCancelled)];
    }

    /* ---- The ancestor check ---- */

    /** Walks the chain of parents and stops at the first type seen once too often. */
    method CountAncestors(p: Package) returns (ok: bool)
      ensures ok <==> NoCycles(c, p)
    {
      var seen: map<nat, nat> := map[];
      var current := p.parent;
      ghost var passed: multiset<nat> := multiset{};
      while current.Some?
        invariant multiset(Ancestry(p)) == passed + multiset(Chain(current))
        invariant forall t :: Seen(seen, t) == passed[t] <= c.maxCycle
        decreases |Chain(current)|
      {
        var t := current.value.job.typeId;
        var seenValue := Seen(seen, t);
        ChainStep(current.value);
        if seenValue >= c.maxCycle {
          assert multiset(Ancestry(p))[t] > c.maxCycle;
          return false;
        }
        seen := seen[t := seenValue + 1];
        passed := passed + multiset{t};
        current := current.value.parent;
      }
      ok := true;
    }

    /** Accepts exactly the packages none of whose ancestor types occurs more than maxCycle times. */
    method AssertThereAreNoCycles(p: Package) returns (ok: bool)
      modifies this`pendingJobsAmount, this`records, this`ended
      ensures ok <==> NoCycles(c, p)
      ensures View() == if ok then old(View()) else Finish(old(View()), p, AsFailed, JobFailed(p.job))
    {
      ok := CountAncestors(p);
      if !ok {
        RecordJobFailed(p);
      }
    }

    /* ---- Errors ---- */

    /** Queues the replacement, if any: the retry while tries are left, the backup otherwise. */
    method RetryPackage(p: Package, a: Answer) returns (replacement: Option<Job>)
      modifies this`priorityJobQueue, this`normalJobQueue
      ensures var q := Replacement(c, areJobsCancelled, p, a);
              && (replacement.Some? <==> q.Some?)
              && (q.Some? ==> replacement.value == q.value.job && View() == Enqueue(old(View()), q.value))
              && (q.None? ==> View() == old(View()))
      ensures replacement.None? <==> IsLost(c, areJobsCancelled, p, a)
      ensures replacement.None? ==> View() == old(View())
      ensures replacement.Some? ==>
                && replacement.value == (if IsRetried(c, p, a) then a.retry.job else a.backup.job)
                && Queues(old(View()), View(), Package(replacement.value, if IsRetried(c, p, a) then p.tries + 1 else 0, None, p.slot))
                && NothingEnds(old(View()), View()) && records == old(records)
    {
      if areJobsCancelled {
        return None;
      }
      var job: Option<Job> := None;
      var tries := p.tries;
      if tries < c.maxTries {
        if a.retry.Gave? {
          job := Some(a.retry.job);
        }
        tries := tries + 1;
      }
      if job.None? {
        if a.backup.Gave? {
          job := Some(a.backup.job);
        }
        tries := 0;
      }
      if job.None? || job.value.typeId !in c.workers {
        return None;
      }
      QueuePackage(Package(job.value, tries, None, p.slot));
      replacement := job;
    }

    method HandleReturnedError(p: Package, a: Answer)
      modifies this
      ensures View() == HandleError(c, old(View()), p, a)
      ensures IsLost(c, old(areJobsCancelled), p, a) ==>
                && records == old(records) + [JobFailed(p.job)] && pendingJobsAmount == old(pendingJobsAmount) - 1
                && ended == old(ended) + [End(p.slot, p.job, AsFailed)]
      ensures !IsLost(c, old(areJobsCancelled), p, a) ==>
                && records == old(records) + [JobRetried(p.job, if IsRetried(c, p, a) then a.retry.job else a.backup.job)]
                && pendingJobsAmount == old(pendingJobsAmount) && ended == old(ended)
    {
      var retry := RetryPackage(p, a);
      if retry.Some? {
        records := records + [JobRetried(p.job, retry.value)];
      } else {
        RecordJobFailed(p);
      }
    }

    method HandleRaisedException(p: Package, abort: bool, a: Answer)
      modifies this
      ensures View() == HandleRaised(c, old(View()), p, abort, a)
    {
      if abort {
        RecordJobFailed(p);
      } else {
        HandleReturnedError(p, a);
      }
    }

    /* ---- Pool threads ---- */

    method StartOperating(i: nat)
      requires Enabled(View(), Begin(i))
      modifies this`futures, this`notifications
      ensures View() == Apply(c, old(View()), Begin(i))
    {
      var p := futures[i].pkg;
      if areJobsCancelled {
        notifications := notifications + [Dropped(p)];
        futures := futures[i := Future(p, Returned)];
      } else {
        notifications := notifications + [Started(p)];
        futures := futures[i := Future(p, Operating)];
      }
    }

    /** The worker came back: with children when it gave no error. */
    method FinishOperating(i: nat, result: Option<seq<Job>>)
      requires At(View(), i, Operating)
      modifies this`futures, this`notifications
      ensures View() == Apply(c, old(View()), if result.Some? then Return(i, result.value) else ReturnError(i))
    {
      var p := futures[i].pkg;
      notifications := notifications + [if result.Some? then Completed(p, result.value) else Erred(p)];
      futures := futures[i := Future(p, Returned)];
    }

    /* ---- The main thread ---- */

    method PushChildren(next: seq<Job>, p: Package) returns (pushed: seq<Job>)
      modifies this
      ensures pushed == Accepted(c, next)
      ensures View() == PushAll(c, old(View()), next, Some(p))
    {
      pushed := [];
      for i := 0 to |next|
        invariant PushAll(c, View(), next[i..], Some(p)) == PushAll(c, old(View()), next, Some(p))
        invariant pushed + Accepted(c, next[i..]) == Accepted(c, next)
      {
        assert next[i..] == [next[i]] + next[i + 1..];
        var ok := InternalPushJob(next[i], Some(p));
        if ok {
          pushed := pushed + [next[i]];
        }
      }
    }

    method HandleNotification(a: Answer) returns (started: bool)
      requires notifications != []
      modifies this
      ensures View() == Apply(c, old(View()), Handle(a))
      ensures started <==> old(notifications)[0].Started?
      ensures notifications == old(notifications)[1..]
    {
      var n := notifications[0];
      notifications := notifications[1..];
      started := n.Started?;
      ghost var u := View();
      match n
      case Erred(p) =>
        HandleReturnedError(p, a);
      case Completed(p, next) =>
        var pushed: seq<Job> := [];
        if !areJobsCancelled {
          PushAllShape(c, u, next, Some(p));
          pushed := PushChildren(next, p);
        }
        RecordJobCompleted(p, pushed);
      case Started(p) =>
        records := records + [JobStarted(p.job)];
      case Dropped(p) =>
        CancelJob(p);
    }

    /** What happens elsewhere meanwhile; a move that is not possible does not happen. */
    method Meanwhile(moves: seq<Move>) returns (ghost run: seq<Action>, ghost arrived: seq<Note>)
      modifies this
      ensures Legal(c, old(View()), run) && View() == After(c, old(View()), run)
      ensures forall a :: a in run ==> ByOthers(a)
      ensures notifications == old(notifications) + arrived && |futures| == |old(futures)|
      ensures old(areJobsCancelled) ==> areJobsCancelled
    {
      run, arrived := [], [];
      for k := 0 to |moves|
        invariant Legal(c, old(View()), run) && View() == After(c, old(View()), run)
        invariant forall a :: a in run ==> ByOthers(a)
        invariant notifications == old(notifications) + arrived && |futures| == |old(futures)|
        invariant old(areJobsCancelled) ==> areJobsCancelled
      {
        if IsPossible(moves[k]) {
          ghost var posted := Make(moves[k]);
          OneMore(c, old(View()), run, ActionOf(moves[k]));
          run, arrived := run + [ActionOf(moves[k])], arrived + posted;
        }
      }
    }

    method Make(m: Move) returns (ghost posted: seq<Note>)
      requires IsPossible(m)
      modifies this
      ensures Enabled(old(View()), ActionOf(m)) && View() == Apply(c, old(View()), ActionOf(m))
      ensures notifications == old(notifications) + posted && |futures| == |old(futures)|
      ensures old(areJobsCancelled) ==> areJobsCancelled
    {
      ghost var before := notifications;
      match m {
        case GoAhead(i) => StartOperating(i);
        case ComeBack(i, result) => FinishOperating(i, result);
        case GiveUp(i, abort) => futures := futures[i := Future(futures[i].pkg, Threw(abort))];
        case CancelAll => areJobsCancelled := true;
      }
      posted := notifications[|before|..];
    }

    predicate IsPossible(m: Move)
      reads this
    {
      match m
      case GoAhead(i) => i < |futures| && futures[i].phase.Submitted?
      case ComeBack(i, _) => i < |futures| && futures[i].phase.Operating?
      case GiveUp(i, _) => i < |futures| && futures[i].phase.Operating?
      case CancelAll => !areJobsCancelled
    }

    /**
     Handles notifications until the queue is empty, or, when blocking, until one was handled
     that is not a start. Before each look at the queue, others move; `answers` is what the jobs
     answer. The handled notifications are the first of those that were there and arrived.
     */
    method HandleNotifications(block: bool, answers: nat -> Answer, moves: seq<seq<Move>>)
      returns (ghost run: seq<Action>, ghost handled: seq<Note>, ghost arrived: seq<Note>)
      modifies this
      ensures Legal(c, old(View()), run) && View() == After(c, old(View()), run)
      ensures forall a :: a in run ==> a.Handle? || ByOthers(a)
      ensures InOrder(handled, notifications, old(notifications), arrived) && (moves == [] ==> arrived == [])
      ensures StartsBut(handled, block, 1) && (notifications != [] ==> EndsWait(handled, block))
      ensures |futures| == |old(futures)|
    {
      run, handled, arrived := [], [], [];
      ghost var s0 := View();
      var k, n := 0, 0;
      var waiting := true;
      while waiting
        invariant 0 <= k <= |moves| && (moves == [] ==> arrived == [])
        invariant Legal(c, s0, run) && View() == After(c, s0, run)
        invariant forall a :: a in run ==> a.Handle? || ByOthers(a)
        invariant InOrder(handled, notifications, s0.notes, arrived) && |futures| == |s0.futures|
        invariant waiting ==> StartsBut(handled, block, 0)
        invariant !waiting ==> StartsBut(handled, block, 1) && (notifications != [] ==> EndsWait(handled, block))
        decreases waiting, |moves| - k, |notifications|
      {
        if k < |moves| {
          ghost var were, posted := notifications, [];
          run, posted := MeanwhileAfter(s0, run, moves[k]);
          InOrderArrived(handled, were, s0.notes, arrived, posted);
          arrived := arrived + posted;
          k := k + 1;
        }
        if notifications == [] {
          waiting := false;
        } else {
          var started;
          ghost var note;
          started, run, note := HandleAfter(s0, run, answers(n));
          InOrderHandled(handled, note, notifications, s0.notes, arrived);
          StartsButOne(handled, note, block);
          handled := handled + [note];
          n := n + 1;
          if block && !started {
            waiting := false;
          }
        }
      }
    }

    /** The same as a continuation of a run. */
    method MeanwhileAfter(ghost s0: State, ghost run: seq<Action>, moves: seq<Move>) returns (ghost longer: seq<Action>, ghost posted: seq<Note>)
      requires Legal(c, s0, run) && View() == After(c, s0, run)
      requires forall a :: a in run ==> a.Handle? || ByOthers(a)
      modifies this
      ensures Legal(c, s0, longer) && View() == After(c, s0, longer)
      ensures forall a :: a in longer ==> a.Handle? || ByOthers(a)
      ensures notifications == old(notifications) + posted && |futures| == |old(futures)|
    {
      ghost var others;
      others, posted := Meanwhile(moves);
      RunsCompose(c, s0, run, others);
      longer := run + others;
    }

    method HandleAfter(ghost s0: State, ghost run: seq<Action>, a: Answer)
      returns (started: bool, ghost longer: seq<Action>, ghost note: Note)
      requires Legal(c, s0, run) && View() == After(c, s0, run) && notifications != []
      requires forall a :: a in run ==> a.Handle? || ByOthers(a)
      modifies this
      ensures Legal(c, s0, longer) && View() == After(c, s0, longer)
      ensures forall a :: a in longer ==> a.Handle? || ByOthers(a)
      ensures old(notifications) == [note] + notifications && |futures| == |old(futures)|
      ensures started <==> note.Started?
    {
      note := notifications[0];
      HandleKeepsFutures(c, View(), a);
      OneMore(c, s0, run, Handle(a));
      started := HandleNotification(a);
      longer := run + [Handle(a)];
    }

    method SubmitOne()
      requires HasQueued(View())
      modifies this
      ensures View() == Apply(c, old(View()), Submit)
      ensures |futures| <= |old(futures)| + 1
      ensures |priorityJobQueue| + |normalJobQueue| < |old(priorityJobQueue)| + |old(normalJobQueue)|
    {
      var p := PopPackage();
      var ok := AssertThereAreNoCycles(p.value);
      if ok {
        futures := futures + [Future(p.value, Submitted)];
      }
    }

    /** Submits while there is room; what fails the ancestor check takes no room. */
    method FillFutures() returns (ghost run: seq<Action>)
      modifies this
      ensures Legal(c, old(View()), run) && View() == After(c, old(View()), run)
      ensures forall a :: a in run ==> a.Submit?
      ensures !HasQueued(View()) || |futures| >= c.maxThreads
      ensures |futures| <= c.maxThreads || |futures| == |old(futures)|
    {
      run := [];
      while (priorityJobQueue != [] || normalJobQueue != []) && |futures| < c.maxThreads
        invariant Legal(c, old(View()), run) && View() == After(c, old(View()), run)
        invariant forall a :: a in run ==> a.Submit?
        invariant |futures| <= c.maxThreads || |futures| == |old(futures)|
        decreases |priorityJobQueue| + |normalJobQueue|
      {
        SubmitOne();
        RunsCompose(c, old(View()), run, [Submit]);
        run := run + [Submit];
      }
    }

    method ReapOne(i: nat, a: Answer)
      requires Enabled(View(), Reap(i, a))
      modifies this
      ensures View() == Apply(c, old(View()), Reap(i, a)) && futures == RemoveAt(old(futures), i)
    {
      var f := futures[i];
      futures := RemoveAt(futures, i);
      if f.phase.Threw? {
        HandleRaisedException(f.pkg, f.phase.abort, a);
      }
    }

    /** Keeps the futures that are not done; the ones that raised are retried or failed. */
    method RemoveDoneFutures(answers: seq<Answer>) returns (ghost run: seq<Action>)
      requires |futures| <= |answers|
      modifies this
      ensures Legal(c, old(View()), run) && View() == After(c, old(View()), run)
      ensures forall a :: a in run ==> a.Reap?
      ensures forall f :: f in futures ==> f in old(futures) && (f.phase.Submitted? || f.phase.Operating?)
    {
      run := [];
      var i, k := 0, 0;
      while i < |futures|
        invariant 0 <= i <= |futures| && |futures| + k == |old(futures)| + i
        invariant Legal(c, old(View()), run) && View() == After(c, old(View()), run)
        invariant forall a :: a in run ==> a.Reap?
        invariant forall f :: f in futures ==> f in old(futures)
        invariant forall x :: 0 <= x < i ==> futures[x].phase.Submitted? || futures[x].phase.Operating?
        invariant k <= |old(futures)|
        decreases |futures| - i
      {
        var f, a := futures[i], answers[k];
        if f.phase.Returned? || f.phase.Threw? {
          ReapOne(i, a);
          RunsCompose(c, old(View()), run, [Reap(i, a)]);
          run := run + [Reap(i, a)];
        } else {
          i := i + 1;
        }
        k := k + 1;
      }
    }

    /**
     After a cancellation: what has not started never does, and running workers are waited for, one
     by one. Before each look others move; `ends` is how the workers that are waited for end.
     */
    method CancelFutures(moves: nat -> seq<Move>, ends: nat -> Ending) returns (ghost run: seq<Action>)
      requires areJobsCancelled
      modifies this
      ensures Legal(c, old(View()), run) && View() == After(c, old(View()), run)
      ensures forall a :: a in run ==> a.CancelFuture? || ByOthers(a)
      ensures futures == []
    {
      run := [];
      ghost var s0 := View();
      var k := 0;
      while futures != []
        invariant areJobsCancelled
        invariant Legal(c, s0, run) && View() == After(c, s0, run)
        invariant forall a :: a in run ==> a.CancelFuture? || ByOthers(a)
        decreases |futures|
      {
        ghost var others, posted := Meanwhile(moves(k));
        RunsCompose(c, s0, run, others);
        run := run + others;
        if futures[0].phase.Operating? {
          posted := Make(EndOfFirst(ends(k)));
          OneMore(c, s0, run, ActionOf(EndOfFirst(ends(k))));
          run := run + [ActionOf(EndOfFirst(ends(k)))];
        }
        CancelFirst();
        OneMore(c, s0, run, CancelFuture(0));
        run := run + [CancelFuture(0)];
        k := k + 1;
      }
    }

    method CancelFirst()
      requires Enabled(View(), CancelFuture(0))
      modifies this
      ensures View() == Apply(c, old(View()), CancelFuture(0)) && |futures| < |old(futures)| && areJobsCancelled
    {
      ghost var before := View();
      var f := futures[0];
      futures := futures[1..];
      assert RemoveAt(before.futures, 0) == futures;
      if f.phase.Submitted? {
        CancelJob(f.pkg);
      } else if f.phase.Threw? {
        RecordJobFailed(f.pkg);
      }
    }

    /** The end of execute_jobs: what is still queued is cancelled, and the reporter is told. */
    method Wrap()
      requires LoopLeft(View()) && !drained
      modifies this
      ensures View() == Apply(c, old(View()), DrainQueues)
    {
      var left := priorityJobQueue + normalJobQueue;
      for i := 0 to |left|
        invariant DropAll(View(), left[i..]) == DropAll(old(View()), left)
        invariant priorityJobQueue + normalJobQueue == left
      {
        CancelJob(left[i]);
        assert left[i..][1..] == left[i + 1..];
      }
      priorityJobQueue, normalJobQueue, drained := [], [], true;
      if jobsCancelled != [] {
        records := records + [JobsCancelled(jobsCancelled)];
      }
      DropAllShape(old(View()), left);
    }

    /**
     One turn of the main loop, amid the moves of others: between its phases and before each look
     at the notifications. A move while futures are submitted or looked at is the same as one
     before or after, since it concerns one future, which is looked at once.
     */
    method Tick(forNotes: nat -> Answer, forFutures: seq<Answer>, early: seq<Move>, during: seq<seq<Move>>, late: seq<Move>)
      returns (ghost run: seq<Action>)
      requires |futures| <= |forFutures| && c.maxThreads <= |forFutures|
      modifies this
      ensures Legal(c, old(View()), run) && View() == After(c, old(View()), run)
      ensures Conserved(old(View())) ==> Conserved(View())
      ensures late == [] ==> forall f :: f in futures ==> f.phase.Submitted? || f.phase.Operating?
    {
      ghost var s0 := View();
      run := FillFutures();
      ghost var more, handled, arrived;
      more, arrived := Meanwhile(early);
      RunsCompose(c, s0, run, more);
      run := run + more;
      more, handled, arrived := HandleNotifications(true, forNotes, during);
      RunsCompose(c, s0, run, more);
      run := run + more;
      more := RemoveDoneFutures(forFutures);
      RunsCompose(c, s0, run, more);
      run := run + more;
      if late != [] {
        more, arrived := Meanwhile(late);
        RunsCompose(c, s0, run, more);
        run := run + more;
      }
      if Conserved(s0) {
        RunConserves(c, s0, run);
      }
    }
  }

  lemma OneMore(c: Config, s: State, run: seq<Action>, a: Action)
    requires Legal(c, s, run) && Enabled(After(c, s, run), a)
    ensures Legal(c, s, run + [a]) && After(c, s, run + [a]) == Apply(c, After(c, s, run), a)
  {
    RunsCompose(c, s, run, [a]);
  }

  lemma HandleKeepsFutures(c: Config, s: State, a: Answer)
    requires s.notes != []
    ensures Apply(c, s, Handle(a)).futures == s.futures
  {
    if s.notes[0].Completed? {
      PushAllShape(c, s.(notes := s.notes[1..]), s.notes[0].next, Some(s.notes[0].pkg));
    }
  }
}
