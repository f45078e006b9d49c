/**
 Every run of the job system is finite, for any interleaving. Assumed of the jobs: a `rank`
 that children and retries do not raise and that backups lower. Retries are bounded by
 maxTries per rank, and depth by the ancestor check, because it lets no job type occur more
 than maxCycle times and there are finitely many types.
 */
module Termination {
  import opened Prelude
  import opened Scheduler
  import opened Conservation

  /* ---- A lexicographic descent of finitely many counters cannot go on for ever ---- */

  ghost predicate Descends(f: (nat, nat) -> nat, i: nat, m: nat) {
    exists top: nat :: top < m && f(i + 1, top) < f(i, top) && SameAbove(f, i, top, m)
  }

  ghost predicate SameAbove(f: (nat, nat) -> nat, i: nat, top: nat, m: nat) {
    forall l: nat :: top < l < m ==> f(i + 1, l) == f(i, l)
  }

  ghost predicate StableFrom(h: nat -> nat, k: nat) {
    forall i: nat :: k <= i ==> h(i) == h(k)
  }

  lemma {:induction false} NonIncreasing(h: nat -> nat, i: nat, j: nat)
    requires forall n: nat :: h(n + 1) <= h(n)
    requires i <= j
    ensures h(j) <= h(i)
    decreases j
  {
    if i < j {
      NonIncreasing(h, i, j - 1);
      assert h(j - 1 + 1) <= h(j - 1);
    }
  }

  lemma {:induction false} Settles(h: nat -> nat, from: nat) returns (k: nat)
    requires forall n: nat :: h(n + 1) <= h(n)
    ensures StableFrom(h, k)
    decreases h(from)
  {
    if i: nat :| from <= i && h(i) != h(from) {
      NonIncreasing(h, from, i);
      k := Settles(h, i);
    } else {
      k := from;
    }
  }

  ghost function Column(f: (nat, nat) -> nat, l: nat): nat -> nat { (i: nat) => f(i, l) }
  ghost function Later(f: (nat, nat) -> nat, k: nat): (nat, nat) -> nat { (i: nat, l: nat) => f(k + i, l) }

  lemma TopNeverGrows(f: (nat, nat) -> nat, i: nat, m: nat)
    requires m > 0 && Descends(f, i, m)
    ensures f(i + 1, m - 1) <= f(i, m - 1)
  {
  }

  lemma DescendsBelowAFixedTop(f: (nat, nat) -> nat, k: nat, i: nat, m: nat)
    requires m > 0 && Descends(f, k + i, m) && f(k + i + 1, m - 1) == f(k + i, m - 1)
    ensures Descends(Later(f, k), i, m - 1)
  {
    var top: nat :| top < m && f(k + i + 1, top) < f(k + i, top) && SameAbove(f, k + i, top, m);
    assert SameAbove(Later(f, k), i, top, m - 1);
  }

  lemma {:induction false} NoInfiniteDescent(f: (nat, nat) -> nat, m: nat)
    ensures exists i: nat :: !Descends(f, i, m)
  {
    if m == 0 {
      assert !Descends(f, 0, m);
    } else if forall i: nat :: Descends(f, i, m) {
      var h := Column(f, m - 1);
      forall n: nat
        ensures h(n + 1) <= h(n)
      {
        TopNeverGrows(f, n, m);
      }
      var k := Settles(h, 0);
      NoInfiniteDescent(Later(f, k), m - 1);
      var i: nat :| !Descends(Later(f, k), i, m - 1);
      assert h(k + i + 1) == h(k + i);
      DescendsBelowAFixedTop(f, k, i, m);
      assert false;
    }
  }

  /* ---- Depth is bounded: pigeonhole on the ancestor check ---- */

  lemma {:induction false} Pigeonhole(m: multiset<nat>, types: set<nat>, most: nat)
    requires forall t :: t in m ==> t in types
    requires forall t :: m[t] <= most
    ensures |m| <= most * |types|
    decreases |types|
  {
    if types == {} {
      assert m == multiset{};
    } else {
      var t :| t in types;
      var rest := m[t := 0];
      Pigeonhole(rest, types - {t}, most);
      assert |rest| == |m| - m[t];
      assert most * |types| == most * (|types| - 1) + most;
    }
  }

  /** The longest chain of ancestors that passes the check. */
  ghost function MaxDepth(c: Config): nat { c.maxCycle * |c.workers| }

  lemma CheckedDepthIsBounded(c: Config, p: Package)
    requires NoCycles(c, p)
    requires forall t :: t in Ancestry(p) ==> t in c.workers
    ensures |Ancestry(p)| <= MaxDepth(c)
  {
    Pigeonhole(multiset(Ancestry(p)), c.workers, c.maxCycle);
  }

  /* ---- The measure ---- */

  /** What the measure depends on; `top` bounds the rank of the jobs first pushed. */
  datatype Ctx = Ctx(c: Config, rank: Job -> nat, top: nat)

  ghost predicate PackageOk(x: Ctx, p: Package) {
    && p.tries <= x.c.maxTries
    && x.rank(p.job) <= x.top
    && p.job.typeId in x.c.workers
    && (forall t :: t in Ancestry(p) ==> t in x.c.workers)
    && |Ancestry(p)| <= MaxDepth(x.c) + 1
  }

  ghost predicate CheckedOk(x: Ctx, p: Package) {
    PackageOk(x, p) && |Ancestry(p)| <= MaxDepth(x.c)
  }

  ghost predicate Bounded(x: Ctx, s: State) {
    && (forall p :: p in s.prio ==> PackageOk(x, p))
    && (forall p :: p in s.normal ==> PackageOk(x, p))
    && (forall f :: f in s.futures ==> CheckedOk(x, f.pkg))
    && (forall n :: n in s.notes ==> CheckedOk(x, n.pkg))
  }

  /** Ranks as the action's answers must respect them. */
  ghost predicate RankedAnswer(x: Ctx, p: Package, a: Answer) {
    && (a.retry.Gave? ==> x.rank(a.retry.job) <= x.rank(p.job))
    && (a.backup.Gave? ==> x.rank(a.backup.job) < x.rank(p.job))
  }

  ghost predicate Ranked(x: Ctx, s: State, a: Action)
    requires Enabled(s, a)
  {
    match a
    case Handle(answer) => (
      match s.notes[0]
      case Completed(p, next) => forall j :: j in next ==> x.rank(j) <= x.rank(p.job)
      case Erred(p) => RankedAnswer(x, p, answer)
      case _ => true)
    case Reap(i, answer) => s.futures[i].phase.Threw? ==> RankedAnswer(x, s.futures[i].pkg, answer)
    case _ => true
  }

  /** Lexicographic in (rank, tries left, depth left), as one number. */
  ghost function Base(x: Ctx, p: Package): nat
    requires PackageOk(x, p)
  {
    Encode(x.rank(p.job), x.c.maxTries - p.tries, MaxDepth(x.c) + 1 - |Ancestry(p)|, x.c.maxTries + 1, MaxDepth(x.c) + 2)
  }

  ghost function Encode(a: nat, b: nat, c: nat, nb: nat, nc: nat): nat {
    (a * nb + b) * nc + c
  }

  lemma Scale(a: int, b: int, n: nat)
    requires a <= b
    ensures a * n <= b * n
  {
  }

  lemma EncodeLess(a: nat, b: nat, c: nat, a': nat, b': nat, c': nat, nb: nat, nc: nat)
    requires b < nb && c < nc && b' < nb && c' < nc
    requires a' < a || (a' == a && (b' < b || (b' == b && c' < c)))
    ensures Encode(a', b', c', nb, nc) < Encode(a, b, c, nb, nc)
  {
    if a' < a {
      Scale(a' + 1, a, nb);
      assert (a' + 1) * nb == a' * nb + nb;
    }
    var hi, lo := a * nb + b, a' * nb + b';
    if lo < hi {
      Scale(lo + 1, hi, nc);
      assert (lo + 1) * nc == lo * nc + nc;
    }
  }

  lemma EncodeBound(a: nat, b: nat, c: nat, top: nat, nb: nat, nc: nat)
    requires a <= top && b < nb && c < nc
    ensures Encode(a, b, c, nb, nc) < (top + 1) * nb * nc
  {
    EncodeLess(top + 1, 0, 0, a, b, c, nb, nc);
  }

  /** Number of levels: all levels are below it. */
  ghost function Levels(x: Ctx): nat {
    4 * ((x.top + 1) * (x.c.maxTries + 1) * (MaxDepth(x.c) + 2)) + 1
  }

  ghost function Level(x: Ctx, p: Package, stage: nat): nat {
    if PackageOk(x, p) then 4 * Base(x, p) + stage else 0
  }

  ghost function FutureLevel(x: Ctx, f: Future): nat {
    match f.phase
    case Submitted => Level(x, f.pkg, 3)
    case Operating => Level(x, f.pkg, 2)
    case Threw(_) => Level(x, f.pkg, 1)
    case Returned => 0
  }

  ghost function NoteLevel(x: Ctx, n: Note): nat {
    if n.Started? then 0 else Level(x, n.pkg, 1)
  }

  ghost function Is(a: nat, b: nat): nat { if a == b then 1 else 0 }

  ghost function QueuedAt(x: Ctx, l: nat): Package -> nat { (p: Package) => Is(Level(x, p, 4), l) }
  ghost function FutureAt(x: Ctx, l: nat): Future -> nat { (f: Future) => Is(FutureLevel(x, f), l) }
  ghost function NoteAt(x: Ctx, l: nat): Note -> nat { (n: Note) => Is(NoteLevel(x, n), l) }
  ghost function NumberAt(l: nat): nat -> nat { (n: nat) => Is(n, l) }

  /** How many things are at level l. */
  ghost function CountAt(x: Ctx, s: State, l: nat): nat {
    Sum(s.prio, QueuedAt(x, l)) + Sum(s.normal, QueuedAt(x, l)) + Sum(s.futures, FutureAt(x, l)) + Sum(s.notes, NoteAt(x, l))
  }

  /** The counters: one per level, and on top the two steps that happen at most once. */
  ghost function Counter(x: Ctx, s: State, l: nat): nat {
    if l == Levels(x) then (if s.cancelled then 0 else 1) + (if s.drained then 0 else 1) else CountAt(x, s, l)
  }

  lemma ChildIsLower(x: Ctx, p: Package, q: Package)
    requires CheckedOk(x, p) && q.parent == Some(p) && q.tries == p.tries
    requires x.rank(q.job) <= x.rank(p.job) && q.job.typeId in x.c.workers
    ensures PackageOk(x, q) && Base(x, q) < Base(x, p)
  {
    assert Ancestry(q) == [p.job.typeId] + Ancestry(p);
    EncodeLess(x.rank(p.job), x.c.maxTries - p.tries, MaxDepth(x.c) + 1 - |Ancestry(p)|,
               x.rank(q.job), x.c.maxTries - q.tries, MaxDepth(x.c) + 1 - |Ancestry(q)|,
               x.c.maxTries + 1, MaxDepth(x.c) + 2);
  }

  lemma ReplacementIsLower(x: Ctx, p: Package, cancelled: bool, a: Answer)
    requires CheckedOk(x, p) && RankedAnswer(x, p, a)
    requires Replacement(x.c, cancelled, p, a).Some?
    ensures var q := Replacement(x.c, cancelled, p, a).value; PackageOk(x, q) && Base(x, q) < Base(x, p)
  {
    var q := Replacement(x.c, cancelled, p, a).value;
    assert Ancestry(q) == [];
    EncodeLess(x.rank(p.job), x.c.maxTries - p.tries, MaxDepth(x.c) + 1 - |Ancestry(p)|,
               x.rank(q.job), x.c.maxTries - q.tries, MaxDepth(x.c) + 1 - |Ancestry(q)|,
               x.c.maxTries + 1, MaxDepth(x.c) + 2);
  }

  lemma LevelBound(x: Ctx, p: Package, stage: nat)
    requires PackageOk(x, p) && stage <= 4
    ensures Level(x, p, stage) < Levels(x)
  {
    EncodeBound(x.rank(p.job), x.c.maxTries - p.tries, MaxDepth(x.c) + 1 - |Ancestry(p)|,
                x.top, x.c.maxTries + 1, MaxDepth(x.c) + 2);
  }

  /* ---- One action lowers the measure ---- */

  /** The levels an action removes and the lower ones it adds. */
  datatype LevelFlow = LevelFlow(gone: seq<nat>, added: seq<nat>)

  ghost predicate Balanced(x: Ctx, s: State, t: State, lf: LevelFlow, l: nat) {
    CountAt(x, t, l) + Sum(lf.gone, NumberAt(l)) == CountAt(x, s, l) + Sum(lf.added, NumberAt(l))
  }

  ghost function QueueLevels(x: Ctx, ps: seq<Package>): seq<nat> {
    seq(|ps|, i requires 0 <= i < |ps| => Level(x, ps[i], 4))
  }

  ghost function ErrorLevels(x: Ctx, s: State, p: Package, a: Answer): LevelFlow {
    LevelFlow([Level(x, p, 1)], QueueLevels(x, ErrorFlow(x.c, s.cancelled, p, a).added))
  }

  ghost function LevelsOf(x: Ctx, s: State, a: Action): LevelFlow
    requires Enabled(s, a) && !a.Cancel? && !a.DrainQueues?
  {
    match a
    case Submit => LevelFlow([Level(x, Head(s), 4)], if NoCycles(x.c, Head(s)) then [Level(x, Head(s), 3)] else [])
    case Begin(i) =>
      var p := s.futures[i].pkg;
      LevelFlow([Level(x, p, 3)], if s.cancelled then [0, Level(x, p, 1)] else [Level(x, p, 2), 0])
    case Return(i, _) => LevelFlow([Level(x, s.futures[i].pkg, 2)], [0, Level(x, s.futures[i].pkg, 1)])
    case ReturnError(i) => LevelFlow([Level(x, s.futures[i].pkg, 2)], [0, Level(x, s.futures[i].pkg, 1)])
    case Throw(i, _) => LevelFlow([Level(x, s.futures[i].pkg, 2)], [Level(x, s.futures[i].pkg, 1)])
    case Handle(answer) => (
      match s.notes[0]
      case Erred(p) => ErrorLevels(x, s, p, answer)
      case Completed(p, next) =>
        LevelFlow([Level(x, p, 1)], if s.cancelled then [] else QueueLevels(x, Children(x.c, next, Some(p), s.nextSlot)))
      case Started(_) => LevelFlow([0], [])
      case Dropped(p) => LevelFlow([Level(x, p, 1)], []))
    case Reap(i, answer) =>
      var f := s.futures[i];
      if !f.phase.Threw? then LevelFlow([0], [])
      else if f.phase.abort then LevelFlow([Level(x, f.pkg, 1)], [])
      else ErrorLevels(x, s, f.pkg, answer)
    case CancelFuture(i) => LevelFlow([FutureLevel(x, s.futures[i])], [])
  }

  lemma {:induction false} QueueLevelsSum(x: Ctx, ps: seq<Package>, l: nat)
    ensures Sum(QueueLevels(x, ps), NumberAt(l)) == Sum(ps, QueuedAt(x, l))
  {
    if ps != [] {
      assert QueueLevels(x, ps)[1..] == QueueLevels(x, ps[1..]);
      QueueLevelsSum(x, ps[1..], l);
    }
  }

  lemma EnqueueCount(x: Ctx, s: State, p: Package, l: nat)
    ensures CountAt(x, Enqueue(s, p), l) == CountAt(x, s, l) + Is(Level(x, p, 4), l)
  {
    SumPush(s.prio, p, QueuedAt(x, l));
    SumPush(s.normal, p, QueuedAt(x, l));
  }

  lemma {:induction false} PushAllCount(x: Ctx, s: State, jobs: seq<Job>, parent: Option<Package>, l: nat)
    ensures CountAt(x, PushAll(x.c, s, jobs, parent), l)
         == CountAt(x, s, l) + Sum(Children(x.c, jobs, parent, s.nextSlot), QueuedAt(x, l))
    decreases |jobs|
  {
    if jobs != [] {
      var u := Push(x.c, s, jobs[0], parent);
      PushAllCount(x, u, jobs[1..], parent, l);
      if jobs[0].typeId in x.c.workers {
        EnqueueCount(x, s.(pending := s.pending + 1, nextSlot := s.nextSlot + 1), NewPackage(jobs[0], parent, s.nextSlot), l);
        ChildrenHead(x.c, jobs, parent, s.nextSlot, QueuedAt(x, l));
      }
    }
  }

  lemma PhaseCount(x: Ctx, s: State, i: nat, ph: Phase, n: seq<Note>, l: nat)
    requires i < |s.futures| && |n| <= 1
    ensures CountAt(x, SetPhase(s, i, ph, n), l) + Is(FutureLevel(x, s.futures[i]), l)
         == CountAt(x, s, l) + Is(FutureLevel(x, s.futures[i].(phase := ph)), l)
            + (if n == [] then 0 else Is(NoteLevel(x, n[0]), l))
  {
    SumRemove(s.futures, i, FutureAt(x, l));
    SumUpdate(s.futures, i, s.futures[i].(phase := ph), FutureAt(x, l));
    if n == [] {
      assert s.notes + n == s.notes;
    } else {
      assert n == [n[0]];
      SumPush(s.notes, n[0], NoteAt(x, l));
    }
  }

  lemma NumbersSum(xs: seq<nat>, l: nat)
    ensures |xs| == 1 ==> Sum(xs, NumberAt(l)) == Is(xs[0], l)
    ensures |xs| == 2 ==> Sum(xs, NumberAt(l)) == Is(xs[0], l) + Is(xs[1], l)
  {
  }

  lemma ErrorBalance(x: Ctx, s: State, p: Package, a: Answer, l: nat)
    ensures CountAt(x, HandleError(x.c, s, p, a), l)
         == CountAt(x, s, l) + Sum(ErrorLevels(x, s, p, a).added, NumberAt(l))
  {
    var r := Replacement(x.c, s.cancelled, p, a);
    if r.Some? {
      EnqueueCount(x, s, r.value, l);
      NumbersSum(QueueLevels(x, [r.value]), l);
    }
  }

  lemma NoteBalance(x: Ctx, s: State, a: Answer, l: nat)
    requires s.notes != []
    ensures Balanced(x, s, Apply(x.c, s, Handle(a)), LevelsOf(x, s, Handle(a)), l)
  {
    var u, n := s.(notes := s.notes[1..]), s.notes[0];
    assert CountAt(x, s, l) == CountAt(x, u, l) + Is(NoteLevel(x, n), l);
    NumbersSum(LevelsOf(x, s, Handle(a)).gone, l);
    match n
    case Erred(p) => ErrorBalance(x, u, p, a, l);
    case Completed(p, next) =>
      PushAllCount(x, u, next, Some(p), l);
      QueueLevelsSum(x, Children(x.c, next, Some(p), s.nextSlot), l);
      PushAllShape(x.c, u, next, Some(p));
    case _ =>
  }

  lemma WorkerBalance(x: Ctx, s: State, a: Action, l: nat)
    requires Enabled(s, a) && (a.Begin? || a.Return? || a.ReturnError? || a.Throw?)
    ensures Balanced(x, s, Apply(x.c, s, a), LevelsOf(x, s, a), l)
  {
    NumbersSum(LevelsOf(x, s, a).gone, l);
    NumbersSum(LevelsOf(x, s, a).added, l);
    var p := s.futures[a.i].pkg;
    match a
    case Begin(i) =>
      if s.cancelled { PhaseCount(x, s, i, Returned, [Dropped(p)], l); } else { PhaseCount(x, s, i, Operating, [Started(p)], l); }
    case Return(i, next) => PhaseCount(x, s, i, Returned, [Completed(p, next)], l);
    case ReturnError(i) => PhaseCount(x, s, i, Returned, [Erred(p)], l);
    case Throw(i, abort) => PhaseCount(x, s, i, Threw(abort), [], l);
  }

  lemma ReapBalance(x: Ctx, s: State, i: nat, answer: Answer, l: nat)
    requires Enabled(s, Reap(i, answer))
    ensures Balanced(x, s, Apply(x.c, s, Reap(i, answer)), LevelsOf(x, s, Reap(i, answer)), l)
  {
    var u, f := RemoveFuture(s, i), s.futures[i];
    NumbersSum(LevelsOf(x, s, Reap(i, answer)).gone, l);
    assert CountAt(x, s, l) == CountAt(x, u, l) + Is(FutureLevel(x, f), l) by {
      SumRemove(s.futures, i, FutureAt(x, l));
    }
    ErrorBalance(x, u, f.pkg, answer, l);
    assert Apply(x.c, s, Reap(i, answer)) == if f.phase.Threw? then HandleRaised(x.c, u, f.pkg, f.phase.abort, answer) else u;
  }

  lemma SubmitBalance(x: Ctx, s: State, l: nat)
    requires HasQueued(s)
    ensures Balanced(x, s, Apply(x.c, s, Submit), LevelsOf(x, s, Submit), l)
  {
    NumbersSum(LevelsOf(x, s, Submit).gone, l);
    NumbersSum(LevelsOf(x, s, Submit).added, l);
    SumPush(s.futures, Future(Head(s), Submitted), FutureAt(x, l));
    assert CountAt(x, s, l) == CountAt(x, Pop(s), l) + Is(Level(x, Head(s), 4), l);
  }

  lemma ActionBalance(x: Ctx, s: State, a: Action, l: nat)
    requires Enabled(s, a) && !a.Cancel? && !a.DrainQueues?
    ensures Balanced(x, s, Apply(x.c, s, a), LevelsOf(x, s, a), l)
  {
    match a
    case Submit => SubmitBalance(x, s, l);
    case Handle(answer) => NoteBalance(x, s, answer, l);
    case Reap(i, answer) => ReapBalance(x, s, i, answer, l);
    case CancelFuture(i) =>
      NumbersSum(LevelsOf(x, s, a).gone, l);
      SumRemove(s.futures, i, FutureAt(x, l));
    case _ => WorkerBalance(x, s, a, l);
  }

  lemma ChildrenAreLower(x: Ctx, p: Package, next: seq<Job>, slot: nat, q: Package)
    requires CheckedOk(x, p) && q in Children(x.c, next, Some(p), slot)
    requires forall j :: j in next ==> x.rank(j) <= x.rank(p.job)
    ensures PackageOk(x, q) && Base(x, q) < Base(x, p)
    decreases |next|
  {
    if next[0].typeId in x.c.workers && q == NewPackage(next[0], Some(p), slot) {
      ChildIsLower(x, p, q);
    } else {
      ChildrenAreLower(x, p, next[1..], if next[0].typeId in x.c.workers then slot + 1 else slot, q);
    }
  }

  /** Everything an action adds is below something it removes. */
  ghost predicate Lowers(x: Ctx, lf: LevelFlow) {
    && lf.gone != []
    && (forall g :: g in lf.gone ==> g < Levels(x))
    && (forall b :: b in lf.added ==> b < lf.gone[0])
  }

  lemma ErrorLowers(x: Ctx, s: State, p: Package, a: Answer)
    requires CheckedOk(x, p) && RankedAnswer(x, p, a)
    ensures Lowers(x, ErrorLevels(x, s, p, a))
  {
    LevelBound(x, p, 1);
    var r := Replacement(x.c, s.cancelled, p, a);
    if r.Some? {
      ReplacementIsLower(x, p, s.cancelled, a);
    }
  }

  lemma HandleLowers(x: Ctx, s: State, a: Action)
    requires Enabled(s, a) && a.Handle? && Bounded(x, s) && Ranked(x, s, a)
    ensures Lowers(x, LevelsOf(x, s, a))
  {
    LevelBound(x, s.notes[0].pkg, 1);
    match s.notes[0]
    case Erred(p) => ErrorLowers(x, s, p, a.answer);
    case Completed(p, next) =>
      forall q | q in Children(x.c, next, Some(p), s.nextSlot)
        ensures Level(x, q, 4) < Level(x, p, 1)
      {
        ChildrenAreLower(x, p, next, s.nextSlot, q);
      }
    case _ =>
  }

  lemma ReapLowers(x: Ctx, s: State, a: Action)
    requires Enabled(s, a) && a.Reap? && Bounded(x, s) && Ranked(x, s, a)
    ensures Lowers(x, LevelsOf(x, s, a))
  {
    LevelBound(x, s.futures[a.i].pkg, 1);
    if s.futures[a.i].phase.Threw? {
      ErrorLowers(x, s, s.futures[a.i].pkg, a.answer);
    }
  }

  lemma ActionLowers(x: Ctx, s: State, a: Action)
    requires Enabled(s, a) && !a.Cancel? && !a.DrainQueues? && Bounded(x, s) && Ranked(x, s, a)
    ensures Lowers(x, LevelsOf(x, s, a))
  {
    if a.Handle? {
      HandleLowers(x, s, a);
    } else if a.Reap? {
      ReapLowers(x, s, a);
    } else if a.Submit? {
      LevelBound(x, Head(s), 4);
    } else {
      LevelBound(x, s.futures[a.i].pkg, 3);
      LevelBound(x, s.futures[a.i].pkg, 2);
      LevelBound(x, s.futures[a.i].pkg, 1);
    }
  }

  lemma {:induction false} HighestOf(xs: seq<nat>) returns (i: nat)
    requires xs != []
    ensures i < |xs| && forall y :: y in xs ==> y <= xs[i]
  {
    if |xs| == 1 {
      i := 0;
    } else {
      var k := HighestOf(xs[1..]);
      i := if xs[0] >= xs[k + 1] then 0 else k + 1;
      assert xs == [xs[0]] + xs[1..];
    }
  }

  lemma {:induction false} NoneAt(xs: seq<nat>, l: nat)
    requires l !in xs
    ensures Sum(xs, NumberAt(l)) == 0
  {
    SumWitness(xs, NumberAt(l));
  }

  /** The counters seen along a run. */
  ghost function Counters(x: Ctx, run: nat -> State): (nat, nat) -> nat {
    (i: nat, l: nat) => Counter(x, run(i), l)
  }

  lemma CountsDescend(x: Ctx, s: State, t: State, lf: LevelFlow) returns (top: nat)
    requires Lowers(x, lf) && forall l: nat :: Balanced(x, s, t, lf, l)
    ensures top < Levels(x) && CountAt(x, t, top) < CountAt(x, s, top)
    ensures forall l: nat :: top < l < Levels(x) ==> CountAt(x, t, l) == CountAt(x, s, l)
  {
    var k := HighestOf(lf.gone);
    top := lf.gone[k];
    assert Balanced(x, s, t, lf, top);
    assert lf.gone[0] in lf.gone && lf.gone[k] in lf.gone;
    assert forall b :: b in lf.added ==> b < top;
    SumWitness(lf.gone, NumberAt(top));
    NoneAt(lf.added, top);
    forall l: nat | top < l < Levels(x)
      ensures CountAt(x, t, l) == CountAt(x, s, l)
    {
      assert Balanced(x, s, t, lf, l);
      NoneAt(lf.gone, l);
      NoneAt(lf.added, l);
    }
  }

  lemma ActionDescends(x: Ctx, run: nat -> State, i: nat, a: Action)
    requires Bounded(x, run(i)) && Enabled(run(i), a) && Ranked(x, run(i), a) && run(i + 1) == Apply(x.c, run(i), a)
    ensures Descends(Counters(x, run), i, Levels(x) + 1)
  {
    var f := Counters(x, run);
    if a.Cancel? || a.DrainQueues? {
      DropAllShape(run(i), run(i).prio + run(i).normal);
      assert SameAbove(f, i, Levels(x), Levels(x) + 1);
    } else {
      ActionLowers(x, run(i), a);
      var s, t, lf := run(i), run(i + 1), LevelsOf(x, run(i), a);
      forall l: nat
        ensures Balanced(x, s, t, lf, l)
      {
        ActionBalance(x, s, a, l);
      }
      var top := CountsDescend(x, s, t, lf);
      FlagsStay(x.c, run(i), a);
      assert SameAbove(f, i, top, Levels(x) + 1);
    }
  }

  lemma FlagsStay(c: Config, s: State, a: Action)
    requires Enabled(s, a) && !a.Cancel? && !a.DrainQueues?
    ensures Apply(c, s, a).cancelled == s.cancelled && Apply(c, s, a).drained == s.drained
  {
    if a.Handle? && s.notes[0].Completed? && !s.cancelled {
      PushAllShape(c, s.(notes := s.notes[1..]), s.notes[0].next, Some(s.notes[0].pkg));
    }
  }

  /* ---- The theorem ---- */

  lemma EnqueueBounded(x: Ctx, s: State, p: Package)
    requires Bounded(x, s) && PackageOk(x, p)
    ensures Bounded(x, Enqueue(s, p))
  {
  }

  lemma {:induction false} PushAllBounded(x: Ctx, s: State, jobs: seq<Job>, parent: Option<Package>)
    requires Bounded(x, s) && forall j :: j in jobs ==> x.rank(j) <= x.top
    requires parent.Some? ==> CheckedOk(x, parent.value) && forall j :: j in jobs ==> x.rank(j) <= x.rank(parent.value.job)
    ensures Bounded(x, PushAll(x.c, s, jobs, parent))
    decreases |jobs|
  {
    if jobs != [] {
      var p := NewPackage(jobs[0], parent, s.nextSlot);
      assert Ancestry(p) == if parent.None? then [] else [parent.value.job.typeId] + Ancestry(parent.value);
      var u := Push(x.c, s, jobs[0], parent);
      if jobs[0].typeId in x.c.workers {
        EnqueueBounded(x, s.(pending := s.pending + 1, nextSlot := s.nextSlot + 1), p);
      }
      PushAllBounded(x, u, jobs[1..], parent);
    }
  }

  lemma ErrorBounded(x: Ctx, s: State, p: Package, a: Answer)
    requires Bounded(x, s) && CheckedOk(x, p) && RankedAnswer(x, p, a)
    ensures Bounded(x, HandleError(x.c, s, p, a))
  {
  }

  lemma HandleBounded(x: Ctx, s: State, answer: Answer)
    requires Bounded(x, s) && s.notes != [] && Ranked(x, s, Handle(answer))
    ensures Bounded(x, Apply(x.c, s, Handle(answer)))
  {
    var u := s.(notes := s.notes[1..]);
    match s.notes[0]
    case Erred(p) => ErrorBounded(x, u, p, answer);
    case Completed(p, next) =>
      if !s.cancelled {
        PushAllBounded(x, u, next, Some(p));
      }
    case _ =>
  }

  lemma ReapBounded(x: Ctx, s: State, i: nat, answer: Answer)
    requires Bounded(x, s) && Enabled(s, Reap(i, answer)) && Ranked(x, s, Reap(i, answer))
    ensures Bounded(x, ReapAt(x.c, s, i, answer))
  {
  }

  lemma SubmitBounded(x: Ctx, s: State)
    requires Bounded(x, s) && HasQueued(s)
    ensures Bounded(x, SubmitNext(x.c, s))
  {
    if NoCycles(x.c, Head(s)) {
      assert PackageOk(x, Head(s));
      CheckedDepthIsBounded(x.c, Head(s));
    }
  }

  lemma WorkerBounded(x: Ctx, s: State, a: Action)
    requires Bounded(x, s) && Enabled(s, a) && (a.Begin? || a.Return? || a.ReturnError? || a.Throw?)
    ensures Bounded(x, Apply(x.c, s, a))
  {
  }

  lemma ActionBounded(x: Ctx, s: State, a: Action)
    requires Bounded(x, s) && Enabled(s, a) && Ranked(x, s, a)
    ensures Bounded(x, Apply(x.c, s, a))
  {
    if a.Handle? {
      HandleBounded(x, s, a.answer);
    } else if a.Reap? {
      ReapBounded(x, s, a.i, a.answer);
    } else if a.Submit? {
      SubmitBounded(x, s);
    } else if a.DrainQueues? {
      DropAllShape(s, s.prio + s.normal);
    } else if a.CancelFuture? {
      assert forall f :: f in RemoveFuture(s, a.i).futures ==> f in s.futures;
    } else if !a.Cancel? {
      WorkerBounded(x, s, a);
    }
  }

  lemma LoadedBounded(x: Ctx, jobs: seq<Job>)
    requires forall j :: j in jobs ==> x.rank(j) <= x.top
    ensures Bounded(x, Loaded(x.c, jobs))
  {
    RegisteredIsPrefix(x.c, jobs);
    PushAllBounded(x, Fresh, Registered(x.c, jobs), None);
  }

  lemma {:induction false} RegisteredIsPrefix(c: Config, jobs: seq<Job>)
    ensures Registered(c, jobs) <= jobs
  {
    if jobs != [] {
      RegisteredIsPrefix(c, jobs[1..]);
    }
  }

  /* ---- One retry budget for a whole line of packages ---- */

  datatype Link = ChildOf | RetryOf | BackupOf

  /** How q comes from p: pushed by its completion, or replacing it after an error. */
  ghost predicate Comes(c: Config, p: Package, l: Link, q: Package) {
    match l
    case ChildOf => exists job, slot :: q == NewPackage(job, Some(p), slot)
    case RetryOf => p.tries < c.maxTries && exists a: Answer :: a.retry.Gave? && Replacement(c, false, p, a) == Some(q)
    case BackupOf => exists a: Answer :: !(p.tries < c.maxTries && a.retry.Gave?) && Replacement(c, false, p, a) == Some(q)
  }

  function Retries(links: seq<Link>): nat {
    if links == [] then 0 else (if links[0].RetryOf? then 1 else 0) + Retries(links[1..])
  }

  /**
   Children inherit the tries, so a transfer and the job after it, and whatever they retry, share
   one budget: between two backups a line of packages is retried maxTries times at most.
   */
  lemma {:induction false} OneBudgetPerLine(c: Config, line: seq<Package>, links: seq<Link>)
    requires |line| == |links| + 1 && line[0].tries <= c.maxTries && BackupOf !in links
    requires forall i :: 0 <= i < |links| ==> Comes(c, line[i], links[i], line[i + 1])
    ensures Retries(links) == line[|links|].tries - line[0].tries && line[|links|].tries <= c.maxTries
    decreases |links|
  {
    if links != [] {
      assert Comes(c, line[0], links[0], line[1]);
      assert links[0] in links;
      forall i | 0 <= i < |links[1..]|
        ensures Comes(c, line[1..][i], links[1..][i], line[1..][i + 1])
      {
        assert Comes(c, line[i + 1], links[i + 1], line[i + 2]);
      }
      OneBudgetPerLine(c, line[1..], links[1..]);
    }
  }

  /* ---- The theorem, step by step ---- */

  /** `run` goes on at step i with the action `acts(i)`, whose answers respect the ranks. */
  ghost predicate GoesOn(x: Ctx, run: nat -> State, acts: nat -> Action, i: nat) {
    Enabled(run(i), acts(i)) && Ranked(x, run(i), acts(i)) && run(i + 1) == Apply(x.c, run(i), acts(i))
  }

  lemma {:induction false} BoundedAlong(x: Ctx, run: nat -> State, acts: nat -> Action, i: nat)
    requires Bounded(x, run(0)) && forall k: nat :: GoesOn(x, run, acts, k)
    ensures Bounded(x, run(i))
  {
    if i > 0 {
      BoundedAlong(x, run, acts, i - 1);
      assert GoesOn(x, run, acts, i - 1);
      ActionBounded(x, run(i - 1), acts(i - 1));
    }
  }

  /** No interleaving of any workers goes on for ever. */
  lemma EveryRunIsFinite(x: Ctx, jobs: seq<Job>, run: nat -> State, acts: nat -> Action)
    requires forall j :: j in jobs ==> x.rank(j) <= x.top
    requires run(0) == Loaded(x.c, jobs)
    ensures exists i: nat :: !GoesOn(x, run, acts, i)
  {
    if forall i: nat :: GoesOn(x, run, acts, i) {
      LoadedBounded(x, jobs);
      NoInfiniteDescent(Counters(x, run), Levels(x) + 1);
      var i: nat :| !Descends(Counters(x, run), i, Levels(x) + 1);
      BoundedAlong(x, run, acts, i);
      assert GoesOn(x, run, acts, i);
      ActionDescends(x, run, i, acts(i));
      assert false;
    }
  }
}
