/**
 Conservation of work: whatever the interleaving, every slot that was ever pushed is in
 exactly one place, ends exactly once, and `_pending_jobs_amount` counts what has not ended
 plus what was cancelled.
 */
module Conservation {
  import opened Prelude
  import opened Scheduler

  /* ---- What is live ---- */

  ghost function FutureWeight(g: Package -> nat, f: Future): nat {
    if f.phase.Returned? then 0 else g(f.pkg)
  }

  ghost function NoteWeight(g: Package -> nat, n: Note): nat {
    if n.Started? then 0 else g(n.pkg)
  }

  ghost function OfFuture(g: Package -> nat): Future -> nat {
    (f: Future) => FutureWeight(g, f)
  }

  ghost function OfNote(g: Package -> nat): Note -> nat {
    (n: Note) => NoteWeight(g, n)
  }

  /**
   The sum of g over the packages that have not ended: queued ones, submitted ones whose
   worker has not answered yet or has raised, and ones whose answer is a waiting notification.
   */
  ghost function LiveBy(s: State, g: Package -> nat): nat {
    Sum(s.prio, g) + Sum(s.normal, g) + Sum(s.futures, OfFuture(g)) + Sum(s.notes, OfNote(g))
  }

  /** The packages that pushing `jobs` creates. */
  function Children(c: Config, jobs: seq<Job>, parent: Option<Package>, slot: nat): seq<Package>
    decreases |jobs|
  {
    if jobs == [] then []
    else if jobs[0].typeId !in c.workers then Children(c, jobs[1..], parent, slot)
    else [NewPackage(jobs[0], parent, slot)] + Children(c, jobs[1..], parent, slot + 1)
  }

  lemma EnqueueLive(s: State, p: Package, g: Package -> nat)
    ensures LiveBy(Enqueue(s, p), g) == LiveBy(s, g) + g(p)
  {
    SumPush(s.prio, p, g);
    SumPush(s.normal, p, g);
  }

  lemma {:induction false} PushAllShape(c: Config, s: State, jobs: seq<Job>, parent: Option<Package>)
    ensures var t, kids := PushAll(c, s, jobs, parent), Children(c, jobs, parent, s.nextSlot);
            && t.nextSlot == s.nextSlot + |kids|
            && t.pending == s.pending + |kids|
            && t == s.(prio := t.prio, normal := t.normal, pending := t.pending, nextSlot := t.nextSlot)
    decreases |jobs|
  {
    if jobs != [] {
      PushAllShape(c, Push(c, s, jobs[0], parent), jobs[1..], parent);
    }
  }

  lemma {:induction false} PushAllLive(c: Config, s: State, jobs: seq<Job>, parent: Option<Package>, g: Package -> nat)
    ensures LiveBy(PushAll(c, s, jobs, parent), g) == LiveBy(s, g) + Sum(Children(c, jobs, parent, s.nextSlot), g)
    decreases |jobs|
  {
    if jobs != [] {
      var u := Push(c, s, jobs[0], parent);
      PushAllLive(c, u, jobs[1..], parent, g);
      if jobs[0].typeId in c.workers {
        var p := NewPackage(jobs[0], parent, s.nextSlot);
        EnqueueLive(s.(pending := s.pending + 1, nextSlot := s.nextSlot + 1), p, g);
        ChildrenHead(c, jobs, parent, s.nextSlot, g);
      }
    }
  }

  lemma ChildrenHead(c: Config, jobs: seq<Job>, parent: Option<Package>, slot: nat, g: Package -> nat)
    requires jobs != [] && jobs[0].typeId in c.workers
    ensures Sum(Children(c, jobs, parent, slot), g)
         == g(NewPackage(jobs[0], parent, slot)) + Sum(Children(c, jobs[1..], parent, slot + 1), g)
  {
  }

  function WithPriority(ps: seq<Package>, priority: bool): seq<Package> {
    if ps == [] then [] else (if ps[0].job.priority == priority then [ps[0]] else []) + WithPriority(ps[1..], priority)
  }

  function QueueOf(s: State, priority: bool): seq<Package> { if priority then s.prio else s.normal }

  /** Jobs are queued in the order they are pushed in, each in the queue of its priority. */
  lemma {:induction false} PushAllQueues(c: Config, s: State, jobs: seq<Job>, parent: Option<Package>, priority: bool)
    ensures QueueOf(PushAll(c, s, jobs, parent), priority)
         == QueueOf(s, priority) + WithPriority(Children(c, jobs, parent, s.nextSlot), priority)
    decreases |jobs|
  {
    if jobs != [] {
      var u := Push(c, s, jobs[0], parent);
      PushAllQueues(c, u, jobs[1..], parent, priority);
      if jobs[0].typeId in c.workers {
        PushQueues(c, s, jobs[0], parent, Children(c, jobs[1..], parent, s.nextSlot + 1), priority);
      }
    }
  }

  lemma PushQueues(c: Config, s: State, job: Job, parent: Option<Package>, rest: seq<Package>, priority: bool)
    requires job.typeId in c.workers
    ensures QueueOf(Push(c, s, job, parent), priority) + WithPriority(rest, priority)
         == QueueOf(s, priority) + WithPriority([NewPackage(job, parent, s.nextSlot)] + rest, priority)
  {
    var p := NewPackage(job, parent, s.nextSlot);
    assert ([p] + rest)[1..] == rest;
  }

  lemma PopLive(s: State, g: Package -> nat)
    requires HasQueued(s)
    ensures LiveBy(s, g) == LiveBy(Pop(s), g) + g(Head(s))
  {
  }

  lemma {:induction false} DropAllShape(s: State, ps: seq<Package>)
    ensures var t := DropAll(s, ps);
            && t == s.(jobsCancelled := t.jobsCancelled, ended := t.ended)
            && |t.jobsCancelled| == |s.jobsCancelled| + |ps|
            && |t.ended| == |s.ended| + |ps|
            && (forall i :: 0 <= i < |s.ended| ==> t.ended[i] == s.ended[i])
            && (forall i :: 0 <= i < |ps| ==> t.ended[|s.ended| + i] == End(ps[i].slot, ps[i].job, AsCancelled))
    decreases |ps|
  {
    if ps != [] {
      DropAllShape(DropJob(s, ps[0]), ps[1..]);
      var t := DropAll(s, ps);
      forall i | 0 <= i < |ps|
        ensures t.ended[|s.ended| + i] == End(ps[i].slot, ps[i].job, AsCancelled)
      {
        if i > 0 {
          assert ps[1..][i - 1] == ps[i];
        }
      }
    }
  }

  /** The packages an action takes out of play and the ones it puts into play. */
  datatype Flow = Flow(gone: seq<Package>, added: seq<Package>)

  function ErrorFlow(c: Config, cancelled: bool, p: Package, a: Answer): Flow {
    var r := Replacement(c, cancelled, p, a);
    Flow([p], if r.Some? then [r.value] else [])
  }

  ghost function FlowOf(c: Config, s: State, a: Action): Flow
    requires Enabled(s, a)
  {
    match a
    case Submit => if NoCycles(c, Head(s)) then Flow([], []) else Flow([Head(s)], [])
    case Handle(answer) => (
      match s.notes[0]
      case Erred(p) => ErrorFlow(c, s.cancelled, p, answer)
      case Completed(p, next) => Flow([p], if s.cancelled then [] else Children(c, next, Some(p), s.nextSlot))
      case Started(_) => Flow([], [])
      case Dropped(p) => Flow([p], []))
    case Reap(i, answer) =>
      var f := s.futures[i];
      if !f.phase.Threw? then Flow([], [])
      else if f.phase.abort then Flow([f.pkg], [])
      else ErrorFlow(c, s.cancelled, f.pkg, answer)
    case CancelFuture(i) => if s.futures[i].phase.Returned? then Flow([], []) else Flow([s.futures[i].pkg], [])
    case DrainQueues => Flow(s.prio + s.normal, [])
    case _ => Flow([], [])
  }

  lemma HandleErrorLive(c: Config, s: State, p: Package, a: Answer, g: Package -> nat)
    ensures LiveBy(HandleError(c, s, p, a), g) == LiveBy(s, g) + Sum(ErrorFlow(c, s.cancelled, p, a).added, g)
  {
    var r := Replacement(c, s.cancelled, p, a);
    if r.Some? {
      EnqueueLive(s, r.value, g);
      SumOne(r.value, g);
    }
  }

  lemma PhaseLive(s: State, i: nat, ph: Phase, n: seq<Note>, g: Package -> nat)
    requires i < |s.futures| && !s.futures[i].phase.Returned?
    requires ph.Returned? ==> |n| == 1 && !n[0].Started? && n[0].pkg == s.futures[i].pkg
    requires !ph.Returned? ==> n == [] || (|n| == 1 && n[0].Started?)
    ensures LiveBy(SetPhase(s, i, ph, n), g) == LiveBy(s, g)
  {
    var t := SetPhase(s, i, ph, n);
    SumRemove(s.futures, i, OfFuture(g));
    SumUpdate(s.futures, i, s.futures[i].(phase := ph), OfFuture(g));
    if n != [] {
      assert n == [n[0]];
      SumPush(s.notes, n[0], OfNote(g));
    } else {
      assert t.notes == s.notes;
    }
  }

  lemma RemoveFutureLive(s: State, i: nat, g: Package -> nat)
    requires i < |s.futures|
    ensures LiveBy(s, g) == LiveBy(RemoveFuture(s, i), g) + OfFuture(g)(s.futures[i])
  {
    SumRemove(s.futures, i, OfFuture(g));
  }

  lemma NotePopLive(s: State, g: Package -> nat)
    requires s.notes != []
    ensures LiveBy(s, g) == LiveBy(s.(notes := s.notes[1..]), g) + OfNote(g)(s.notes[0])
  {
  }

  /** The sum over the live packages changes by what the action adds and removes. */
  ghost predicate FlowBalances(c: Config, s: State, a: Action, g: Package -> nat)
    requires Enabled(s, a)
  {
    LiveBy(Apply(c, s, a), g) + Sum(FlowOf(c, s, a).gone, g) == LiveBy(s, g) + Sum(FlowOf(c, s, a).added, g)
  }

  lemma HandleLive(c: Config, s: State, a: Action, g: Package -> nat)
    requires Enabled(s, a) && a.Handle?
    ensures FlowBalances(c, s, a, g)
  {
    NotePopLive(s, g);
    var u, n := s.(notes := s.notes[1..]), s.notes[0];
    SumOne(n.pkg, g);
    match n
    case Erred(p) => HandleErrorLive(c, u, p, a.answer, g);
    case Completed(p, next) =>
      PushAllLive(c, u, next, Some(p), g);
      PushAllShape(c, u, next, Some(p));
    case _ =>
  }

  lemma ReapLive(c: Config, s: State, a: Action, g: Package -> nat)
    requires Enabled(s, a) && a.Reap?
    ensures FlowBalances(c, s, a, g)
  {
    RemoveFutureLive(s, a.i, g);
    var f := s.futures[a.i];
    SumOne(f.pkg, g);
    HandleErrorLive(c, RemoveFuture(s, a.i), f.pkg, a.answer, g);
  }

  lemma SubmitLive(c: Config, s: State, a: Action, g: Package -> nat)
    requires Enabled(s, a) && a.Submit?
    ensures FlowBalances(c, s, a, g)
  {
    PopLive(s, g);
    SumPush(s.futures, Future(Head(s), Submitted), OfFuture(g));
    SumOne(Head(s), g);
  }

  lemma WorkerLive(c: Config, s: State, a: Action, g: Package -> nat)
    requires Enabled(s, a) && (a.Begin? || a.Return? || a.ReturnError? || a.Throw?)
    ensures FlowBalances(c, s, a, g)
  {
    var p := s.futures[a.i].pkg;
    match a
    case Begin(i) =>
      if s.cancelled { PhaseLive(s, i, Returned, [Dropped(p)], g); } else { PhaseLive(s, i, Operating, [Started(p)], g); }
    case Return(i, next) => PhaseLive(s, i, Returned, [Completed(p, next)], g);
    case ReturnError(i) => PhaseLive(s, i, Returned, [Erred(p)], g);
    case Throw(i, abort) => PhaseLive(s, i, Threw(abort), [], g);
  }

  lemma WindDownLive(c: Config, s: State, a: Action, g: Package -> nat)
    requires Enabled(s, a) && (a.CancelFuture? || a.DrainQueues?)
    ensures FlowBalances(c, s, a, g)
  {
    match a
    case CancelFuture(i) =>
      RemoveFutureLive(s, i, g);
      SumOne(s.futures[i].pkg, g);
    case DrainQueues =>
      DropAllShape(s, s.prio + s.normal);
      SumAppend(s.prio, s.normal, g);
  }

  /** Any action moves packages as FlowOf says and touches no other live package. */
  lemma ActionFlow(c: Config, s: State, a: Action, g: Package -> nat)
    requires Enabled(s, a)
    ensures FlowBalances(c, s, a, g)
  {
    if a.Handle? {
      HandleLive(c, s, a, g);
    } else if a.Reap? {
      ReapLive(c, s, a, g);
    } else if a.Submit? {
      SubmitLive(c, s, a, g);
    } else if a.CancelFuture? || a.DrainQueues? {
      WindDownLive(c, s, a, g);
    } else if !a.Cancel? {
      WorkerLive(c, s, a, g);
    }
  }

  /* ---- The laws ---- */

  ghost function OfSlot(k: nat): Package -> nat { (p: Package) => if p.slot == k then 1 else 0 }
  ghost function EndedSlot(k: nat): End -> nat { (e: End) => if e.slot == k then 1 else 0 }
  ghost function Each(): Package -> nat { (p: Package) => 1 }

  /** Every slot pushed so far is live or ended, never both, and only once. */
  ghost predicate SlotsConserved(s: State) {
    forall k: nat :: LiveBy(s, OfSlot(k)) + Sum(s.ended, EndedSlot(k)) == if k < s.nextSlot then 1 else 0
  }

  /** The pending count is the number of live packages plus the number of cancelled ones. */
  ghost predicate PendingExact(s: State) {
    s.pending == LiveBy(s, Each()) + |s.jobsCancelled|
  }

  /** Nothing is dropped unless the run was cancelled. */
  ghost predicate NoEarlyDrop(s: State) {
    !s.cancelled ==>
      && s.jobsCancelled == []
      && (forall n :: n in s.notes ==> !n.Dropped?)
      && (forall e :: e in s.ended ==> e.how != AsCancelled)
  }

  ghost predicate Conserved(s: State) {
    SlotsConserved(s) && PendingExact(s) && NoEarlyDrop(s)
  }

  lemma {:induction false} SumEach(ps: seq<Package>)
    ensures Sum(ps, Each()) == |ps|
  {
    if ps != [] {
      SumEach(ps[1..]);
    }
  }

  lemma {:induction false} ChildrenSlots(c: Config, jobs: seq<Job>, parent: Option<Package>, slot: nat, k: nat)
    ensures var kids := Children(c, jobs, parent, slot);
            Sum(kids, OfSlot(k)) == if slot <= k < slot + |kids| then 1 else 0
    decreases |jobs|
  {
    if jobs != [] {
      if jobs[0].typeId in c.workers {
        ChildrenHead(c, jobs, parent, slot, OfSlot(k));
        ChildrenSlots(c, jobs[1..], parent, slot + 1, k);
      } else {
        ChildrenSlots(c, jobs[1..], parent, slot, k);
      }
    }
  }

  lemma {:induction false} DropAllEnds(s: State, ps: seq<Package>, k: nat)
    ensures Sum(DropAll(s, ps).ended, EndedSlot(k)) == Sum(s.ended, EndedSlot(k)) + Sum(ps, OfSlot(k))
    decreases |ps|
  {
    if ps != [] {
      DropAllEnds(DropJob(s, ps[0]), ps[1..], k);
      SumPush(s.ended, End(ps[0].slot, ps[0].job, AsCancelled), EndedSlot(k));
    }
  }

  /** How an action moves slot k between live, ended and not yet pushed. */
  ghost predicate SlotMoves(s: State, t: State, fl: Flow, k: nat) {
    Sum(t.ended, EndedSlot(k)) + Sum(fl.added, OfSlot(k))
      == Sum(s.ended, EndedSlot(k)) + Sum(fl.gone, OfSlot(k)) + if s.nextSlot <= k < t.nextSlot then 1 else 0
  }

  lemma EndOne(s: State, p: Package, how: How, k: nat)
    ensures Sum(s.ended + [End(p.slot, p.job, how)], EndedSlot(k)) == Sum(s.ended, EndedSlot(k)) + OfSlot(k)(p)
    ensures Sum([p], OfSlot(k)) == OfSlot(k)(p)
  {
    SumPush(s.ended, End(p.slot, p.job, how), EndedSlot(k));
    SumOne(p, OfSlot(k));
  }

  lemma ErrorEnds(c: Config, s: State, p: Package, answer: Answer, k: nat)
    ensures SlotMoves(s, HandleError(c, s, p, answer), ErrorFlow(c, s.cancelled, p, answer), k)
  {
    EndOne(s, p, AsFailed, k);
    var r := Replacement(c, s.cancelled, p, answer);
    if r.Some? {
      SumOne(r.value, OfSlot(k));
    }
  }

  lemma NoteEnds(c: Config, s: State, a: Action, k: nat)
    requires Enabled(s, a) && a.Handle?
    ensures SlotMoves(s, Apply(c, s, a), FlowOf(c, s, a), k)
  {
    var u, n := s.(notes := s.notes[1..]), s.notes[0];
    match n
    case Erred(p) => ErrorEnds(c, u, p, a.answer, k);
    case Completed(p, next) =>
      PushAllShape(c, u, next, Some(p));
      ChildrenSlots(c, next, Some(p), s.nextSlot, k);
      EndOne(s, p, AsCompleted, k);
    case Started(p) =>
    case Dropped(p) => EndOne(s, p, AsCancelled, k);
  }

  lemma ReapEnds(c: Config, s: State, a: Action, k: nat)
    requires Enabled(s, a) && a.Reap?
    ensures SlotMoves(s, Apply(c, s, a), FlowOf(c, s, a), k)
  {
    var p := s.futures[a.i].pkg;
    EndOne(s, p, AsFailed, k);
    ErrorEnds(c, RemoveFuture(s, a.i), p, a.answer, k);
  }

  lemma WindDownEnds(c: Config, s: State, a: Action, k: nat)
    requires Enabled(s, a) && (a.CancelFuture? || a.DrainQueues?)
    ensures SlotMoves(s, Apply(c, s, a), FlowOf(c, s, a), k)
  {
    match a
    case CancelFuture(i) =>
      EndOne(s, s.futures[i].pkg, AsCancelled, k);
      EndOne(s, s.futures[i].pkg, AsFailed, k);
    case DrainQueues =>
      DropAllEnds(s, s.prio + s.normal, k);
      DropAllShape(s, s.prio + s.normal);
  }

  lemma ActionEnds(c: Config, s: State, a: Action, k: nat)
    requires Enabled(s, a)
    ensures SlotMoves(s, Apply(c, s, a), FlowOf(c, s, a), k)
  {
    if a.Handle? {
      NoteEnds(c, s, a, k);
    } else if a.Reap? {
      ReapEnds(c, s, a, k);
    } else if a.CancelFuture? || a.DrainQueues? {
      WindDownEnds(c, s, a, k);
    } else if a.Submit? {
      EndOne(s, Head(s), AsFailed, k);
    }
  }

  lemma ActionPending(c: Config, s: State, a: Action)
    requires Enabled(s, a)
    ensures var fl, t := FlowOf(c, s, a), Apply(c, s, a);
            t.pending - |t.jobsCancelled| + |fl.gone| == s.pending - |s.jobsCancelled| + |fl.added|
  {
    if a.DrainQueues? {
      DropAllShape(s, s.prio + s.normal);
    } else if a.Handle? && s.notes[0].Completed? && !s.cancelled {
      PushAllShape(c, s.(notes := s.notes[1..]), s.notes[0].next, Some(s.notes[0].pkg));
    }
  }

  /** With nothing pending and no cancellation, nothing is live. */
  lemma LoopLeftMeansDone(s: State)
    requires Conserved(s) && LoopLeft(s) && !s.cancelled
    ensures s.prio == [] && s.normal == [] && s.pending == 0
    ensures forall n :: n in s.notes ==> n.Started?
  {
    SumEach(s.prio);
    SumEach(s.normal);
    SumWitness(s.notes, OfNote(Each()));
  }

  lemma HandleNoEarlyDrop(c: Config, s: State, a: Action)
    requires Enabled(s, a) && a.Handle? && NoEarlyDrop(s)
    ensures NoEarlyDrop(Apply(c, s, a))
  {
    if s.notes[0].Completed? && !s.cancelled {
      PushAllShape(c, s.(notes := s.notes[1..]), s.notes[0].next, Some(s.notes[0].pkg));
    }
    assert forall n :: n in s.notes[1..] ==> n in s.notes;
    assert s.notes[0] in s.notes;
  }

  lemma ActionNoEarlyDrop(c: Config, s: State, a: Action)
    requires Enabled(s, a) && Conserved(s)
    ensures NoEarlyDrop(Apply(c, s, a))
  {
    if a.DrainQueues? {
      DropAllShape(s, s.prio + s.normal);
      if !s.cancelled {
        LoopLeftMeansDone(s);
      }
    } else if a.Handle? {
      HandleNoEarlyDrop(c, s, a);
    }
  }

  /** The three laws survive every action. */
  lemma ActionConserves(c: Config, s: State, a: Action)
    requires Enabled(s, a) && Conserved(s)
    ensures Conserved(Apply(c, s, a))
  {
    var t := Apply(c, s, a);
    forall k: nat
      ensures LiveBy(t, OfSlot(k)) + Sum(t.ended, EndedSlot(k)) == if k < t.nextSlot then 1 else 0
    {
      ActionFlow(c, s, a, OfSlot(k));
      ActionEnds(c, s, a, k);
      SlotsGrow(c, s, a);
    }
    ActionFlow(c, s, a, Each());
    SumEach(FlowOf(c, s, a).gone);
    SumEach(FlowOf(c, s, a).added);
    ActionPending(c, s, a);
    ActionNoEarlyDrop(c, s, a);
  }

  lemma SlotsGrow(c: Config, s: State, a: Action)
    requires Enabled(s, a)
    ensures s.nextSlot <= Apply(c, s, a).nextSlot
  {
    if a.DrainQueues? {
      DropAllShape(s, s.prio + s.normal);
    } else if a.Handle? && s.notes[0].Completed? && !s.cancelled {
      PushAllShape(c, s.(notes := s.notes[1..]), s.notes[0].next, Some(s.notes[0].pkg));
    }
  }

  lemma FreshIsEmpty(g: Package -> nat)
    ensures LiveBy(Fresh, g) == 0
  {
  }

  lemma IdlePushed(c: Config, s: State, jobs: seq<Job>, g: Package -> nat)
    requires LiveBy(s, g) == 0 && s.nextSlot == 0
    ensures LiveBy(PushAll(c, s, jobs, None), g) == Sum(Children(c, jobs, None, 0), g)
  {
    PushAllLive(c, s, jobs, None, g);
  }

  lemma LoadedLive(c: Config, jobs: seq<Job>, g: Package -> nat)
    ensures LiveBy(Loaded(c, jobs), g) == Sum(Children(c, Registered(c, jobs), None, 0), g)
  {
    FreshIsEmpty(g);
    IdlePushed(c, Fresh, Registered(c, jobs), g);
  }

  lemma LoadedSlots(c: Config, jobs: seq<Job>, k: nat)
    ensures var s := Loaded(c, jobs); LiveBy(s, OfSlot(k)) == if k < s.nextSlot then 1 else 0
  {
    var accepted := Registered(c, jobs);
    PushAllShape(c, Fresh, accepted, None);
    LoadedLive(c, jobs, OfSlot(k));
    ChildrenSlots(c, accepted, None, 0, k);
  }

  lemma LoadedPending(c: Config, jobs: seq<Job>)
    ensures PendingExact(Loaded(c, jobs)) && NoEarlyDrop(Loaded(c, jobs)) && Loaded(c, jobs).ended == []
  {
    var accepted, s := Registered(c, jobs), Loaded(c, jobs);
    assert s == PushAll(c, Fresh, accepted, None);
    PushAllShape(c, Fresh, accepted, None);
    LoadedLive(c, jobs, Each());
    SumEach(Children(c, accepted, None, 0));
  }

  lemma LoadedConserved(c: Config, jobs: seq<Job>)
    ensures Conserved(Loaded(c, jobs))
  {
    LoadedPending(c, jobs);
    forall k: nat { LoadedSlots(c, jobs, k); }
  }

  lemma {:induction false} RunConserves(c: Config, s: State, run: seq<Action>)
    requires Legal(c, s, run) && Conserved(s)
    ensures Conserved(After(c, s, run))
    decreases |run|
  {
    if run != [] {
      ActionConserves(c, s, run[0]);
      RunConserves(c, Apply(c, s, run[0]), run[1..]);
    }
  }

  /** At every moment of every run the pending count is live packages plus cancelled ones. */
  lemma PendingCountsLiveAndCancelled(c: Config, jobs: seq<Job>, run: seq<Action>)
    requires Legal(c, Loaded(c, jobs), run)
    ensures Conserved(After(c, Loaded(c, jobs), run))
  {
    LoadedConserved(c, jobs);
    RunConserves(c, Loaded(c, jobs), run);
  }

  ghost predicate EndedOnce(s: State, k: nat) {
    && (exists e :: e in s.ended && e.slot == k)
    && (forall i, j :: 0 <= i < j < |s.ended| && s.ended[i].slot == k ==> s.ended[j].slot != k)
  }

  lemma {:induction false} TwiceCounts(es: seq<End>, k: nat, i: nat, j: nat)
    requires i < j < |es| && es[i].slot == es[j].slot == k
    ensures Sum(es, EndedSlot(k)) >= 2
  {
    SumRemove(es, j, EndedSlot(k));
    SumWitness(RemoveAt(es, j), EndedSlot(k));
    assert RemoveAt(es, j)[i] == es[i];
  }

  /** A slot with no live package has ended exactly once. */
  lemma EndedExactlyOnce(s: State, k: nat)
    requires Conserved(s) && k < s.nextSlot && LiveBy(s, OfSlot(k)) == 0
    ensures EndedOnce(s, k)
  {
    assert Sum(s.ended, EndedSlot(k)) == 1;
    SumWitness(s.ended, EndedSlot(k));
    var i :| 0 <= i < |s.ended| && EndedSlot(k)(s.ended[i]) > 0;
    assert s.ended[i] in s.ended;
    forall x, y | 0 <= x < y < |s.ended| && s.ended[x].slot == k
      ensures s.ended[y].slot != k
    {
      if s.ended[y].slot == k {
        TwiceCounts(s.ended, k, x, y);
      }
    }
  }

  /**
   Conservation over every interleaving: an uncancelled run that leaves the main loop has
   nothing pending and empty queues, and each pushed slot ended once, completed or failed.
   */
  lemma UncancelledRunEndsClean(c: Config, jobs: seq<Job>, run: seq<Action>)
    requires Legal(c, Loaded(c, jobs), run)
    requires var t := After(c, Loaded(c, jobs), run); LoopLeft(t) && !t.cancelled
    ensures var t := After(c, Loaded(c, jobs), run);
            && t.pending == 0 && t.prio == [] && t.normal == [] && t.jobsCancelled == []
            && (forall k: nat :: k < t.nextSlot ==> EndedOnce(t, k))
            && (forall e :: e in t.ended ==> e.how != AsCancelled)
  {
    LoadedConserved(c, jobs);
    RunConserves(c, Loaded(c, jobs), run);
    var t := After(c, Loaded(c, jobs), run);
    LoopLeftMeansDone(t);
    forall k: nat | k < t.nextSlot
      ensures EndedOnce(t, k)
    {
      SumWitness(t.notes, OfNote(OfSlot(k)));
      EndedExactlyOnce(t, k);
    }
  }

  /** A cancelled run that was wound down: what is still pending is exactly what was cancelled. */
  lemma CancelledRunAccountsForAll(c: Config, jobs: seq<Job>, run: seq<Action>)
    requires Legal(c, Loaded(c, jobs), run)
    requires var t := After(c, Loaded(c, jobs), run);
             t.cancelled && t.futures == [] && t.notes == [] && !HasQueued(t)
    ensures var t := After(c, Loaded(c, jobs), run);
            && t.pending == |t.jobsCancelled|
            && (forall k: nat :: k < t.nextSlot ==> EndedOnce(t, k))
  {
    LoadedConserved(c, jobs);
    RunConserves(c, Loaded(c, jobs), run);
    var t := After(c, Loaded(c, jobs), run);
    forall k: nat | k < t.nextSlot
      ensures EndedOnce(t, k)
    {
      EndedExactlyOnce(t, k);
    }
  }
}
