/** What main.c prints: it prints the matrices when tpool_synchronize has returned, which is before the last
    works need be done. */
module PoolOutput {
  import opened ThreadPool
  import opened PoolSplit
  import opened PoolInvariant
  import opened PoolProgress
  import opened PoolRuns

  /** What cell x of result r ought to be. */
  function Expected(s: State, r: nat, x: int): int
    requires ValidState(s) && r < |s.reqs| && 0 <= x < s.n * s.n
  {
    CellInRange(x, s.n);
    Product(s.reqs[r].a, s.reqs[r].b, x / s.n, x % s.n, s.n)
  }

  lemma RightIs(s: State, r: nat, x: int)
    requires ValidState(s) && r < |s.reqs| && 0 <= x < s.n * s.n
    ensures CellRight(s, r, x) <==> Value(s, r, x) == Expected(s, r, x)
  {
    hide Product;
    CellInRange(x, s.n);
  }

  // ---- every cell is right, or still 0 ----

  ghost predicate ZeroOrRight(s: State)
    requires ValidState(s)
  {
    forall r: nat, x: int :: r < |s.reqs| && 0 <= x < s.n * s.n ==>
      Value(s, r, x) == 0 || Value(s, r, x) == Expected(s, r, x)
  }

  lemma StartIsZero(j: Job)
    requires ValidJob(j)
    ensures ValidState(Start(j)) && forall r: nat, x: int :: Value(Start(j), r, x) == 0
  {
    StartKeeps(j);
  }

  lemma SameMatrices(s: State, t: State)
    requires ValidState(s) && ValidState(t) && t.c == s.c && t.n == s.n && t.reqs == s.reqs && ZeroOrRight(s)
    ensures ZeroOrRight(t)
  {
    hide ValidState, Product;
    forall r: nat, x: int | r < |s.reqs| && 0 <= x < s.n * s.n
      ensures Value(t, r, x) == 0 || Value(t, r, x) == Expected(t, r, x)
    {
      assert Value(t, r, x) == Value(s, r, x);
      assert Expected(t, r, x) == Expected(s, r, x);
    }
  }

  /** A cell that a worker writes is then right. */
  lemma WrittenIsRight(s: State, k: nat)
    requires ValidState(s) && k < |s.workers| && s.workers[k].Computing? && s.workers[k].i < s.workers[k].work.end
    requires ZeroOrRight(s)
    ensures ValidState(ComputeCell(s, k)) && ZeroOrRight(ComputeCell(s, k))
  {
    hide Product, Value, IsSquare, Calculation, CellRight;
    CellComputed(s, k);
    var (w, t) := (s.workers[k], ComputeCell(s, k));
    assert ValidWorker(s.n, |s.reqs|, w);
    RightIs(t, w.work.req, w.i);
    forall r: nat, x: int | r < |s.reqs| && 0 <= x < s.n * s.n
      ensures Value(t, r, x) == 0 || Value(t, r, x) == Expected(t, r, x)
    {
      if r != w.work.req || x != w.i {
        CellElsewhere(s, k, r, x);
        assert Expected(t, r, x) == Expected(s, r, x);
      }
    }
  }

  lemma StepZeroOrRight(s: State, a: Action)
    requires PoolInv(s) && Enabled(s, a) && ZeroOrRight(s)
    ensures PoolInv(Apply(s, a)) && ZeroOrRight(Apply(s, a))
  {
    hide PoolInv, ZeroOrRight, IsSquare, ComputeCell, Product;
    ApplyKeeps(s, a);
    InvValid(s);
    InvValid(Apply(s, a));
    if a.WorkerStep? && s.workers[a.k].Computing? && s.workers[a.k].i < s.workers[a.k].work.end {
      WrittenIsRight(s, a.k);
    } else {
      SameMatrices(s, Apply(s, a));
    }
  }

  lemma {:induction false} RunZeroOrRight(s: State, actions: seq<Action>)
    requires PoolInv(s) && ZeroOrRight(s) && CanRun(s, actions)
    ensures PoolInv(After(s, actions)) && ZeroOrRight(After(s, actions))
    decreases |actions|
  {
    hide PoolInv, Apply, Enabled, ZeroOrRight, ValidState;
    if actions == [] {
    } else {
      StepZeroOrRight(s, actions[0]);
      RunZeroOrRight(Apply(s, actions[0]), actions[1..]);
    }
  }

  // ---- with one worker, only the last work can be unfinished ----

  /** The last work of request r - 1. */
  function LastOf(n: nat, reqs: seq<Request>, r: nat): Work
    requires 0 < r <= |reqs| && reqs[r - 1].numWorks > 0
  {
    Work(r - 1, SplitStart(n * n, reqs[r - 1].numWorks, reqs[r - 1].numWorks - 1), n * n)
  }

  /** The work that was pushed most recently. */
  function Newest(s: State): Work
    requires ValidState(s)
  {
    match s.front
    case Announce(r) => if r == 0 then Work(0, 0, 0) else LastOf(s.n, s.reqs, r)
    case Pushing(r, i, start) =>
      if i > 0 then Work(r, SplitStart(s.n * s.n, s.reqs[r].numWorks, i - 1), start)
      else if r == 0 then Work(0, 0, 0) else LastOf(s.n, s.reqs, r)
    case _ => if s.reqs == [] then Work(0, 0, 0) else LastOf(s.n, s.reqs, |s.reqs|)
  }

  /** The newest work is the last in the queue, or, once that is empty, the one that the only worker may hold. */
  ghost predicate NewestLast(s: State)
    requires ValidState(s)
  {
    && |s.workers| == 1
    && (s.pool.queue != [] ==> s.pool.queue[|s.pool.queue| - 1] == Newest(s))
    && (s.pool.queue == [] && s.workers[0].Computing? ==> s.workers[0].work == Newest(s))
  }

  lemma PushNewest(s: State, w: Waker)
    requires PoolInv(s) && Enabled(s, FrontStep(w)) && s.front.Pushing?
    ensures ValidState(s) && ValidState(ApplyFront(s, w))
    ensures var t := ApplyFront(s, w);
      t.pool.queue == s.pool.queue + [Newest(t)] && |t.workers| == |s.workers|
  {
    hide IsSquare, Conserved, Wakeups, CellsAccounted;
    var f := s.front;
    var (total, numWorks) := (s.n * s.n, s.reqs[f.r].numWorks);
    SplitEnds(total, numWorks);
    assert SplitStart(total, numWorks, f.i + 1) == SplitStart(total, numWorks, f.i) + Share(total, numWorks, f.i);
    ApplyKeeps(s, FrontStep(w));
  }

  lemma FrontNewest(s: State, w: Waker)
    requires PoolInv(s) && Enabled(s, FrontStep(w)) && NewestLast(s)
    ensures ValidState(ApplyFront(s, w)) && NewestLast(ApplyFront(s, w))
  {
    ApplyKeeps(s, FrontStep(w));
    if s.front.Pushing? {
      PushNewest(s, w);
    } else {
      hide IsSquare, SplitStart, CutFits, Conserved, Wakeups, CellsAccounted;
    }
  }

  lemma WorkerNewest(s: State, w: Waker)
    requires PoolInv(s) && Enabled(s, WorkerStep(0, w)) && NewestLast(s)
    ensures ValidState(ApplyWorker(s, 0, w)) && NewestLast(ApplyWorker(s, 0, w))
  {
    hide IsSquare, SplitStart, CutFits, Conserved, Wakeups, CellsAccounted, Calculation, Transpose, SetCell;
    ApplyKeeps(s, WorkerStep(0, w));
  }

  lemma StepNewest(s: State, a: Action)
    requires PoolInv(s) && Enabled(s, a) && NewestLast(s)
    ensures PoolInv(Apply(s, a)) && ValidState(Apply(s, a)) && NewestLast(Apply(s, a))
  {
    hide IsSquare, SplitStart, CutFits, Conserved, Wakeups, CellsAccounted, ApplyFront, ApplyWorker, PoolInv;
    ApplyKeeps(s, a);
    InvValid(s);
    match a {
      case FrontStep(w) => FrontNewest(s, w);
      case WorkerStep(k, w) => WorkerNewest(s, w);
      case Spurious(w) => InvValid(Apply(s, a));
    }
  }

  lemma {:induction false} RunNewest(s: State, actions: seq<Action>)
    requires PoolInv(s) && NewestLast(s) && CanRun(s, actions)
    ensures PoolInv(After(s, actions)) && ValidState(After(s, actions)) && NewestLast(After(s, actions))
    decreases |actions|
  {
    hide PoolInv, Apply, Enabled, NewestLast, ValidState;
    if actions == [] {
      InvValid(s);
    } else {
      StepNewest(s, actions[0]);
      RunNewest(Apply(s, actions[0]), actions[1..]);
    }
  }

  // ---- what can be printed ----

  /** tpool_synchronize has returned, so that the matrices are printed, and cell x of result r is not what it ought to
      be. */
  ghost predicate PrintsWrong(t: State, r: nat, x: int) {
    && t.front == Synchronized && ValidState(t) && r < |t.reqs| && 0 <= x < t.n * t.n
    && Value(t, r, x) != Expected(t, r, x)
  }

  /** In some run of the job that fits the ring this cell is printed wrong. */
  ghost predicate CanPrintWrong(j: Job, r: nat, x: int)
    requires ValidJob(j)
  {
    exists actions: seq<Action> ::
      CanRun(Start(j), actions) && Fits(Start(j), actions) && PrintsWrong(After(Start(j), actions), r, x)
  }

  /** The cell ought not to be 0, and it belongs to the last work of all unless there are several workers. */
  ghost predicate AtRisk(j: Job, r: nat, x: int)
    requires ValidJob(j)
  {
    && r < |j.reqs| && 0 <= x < j.n * j.n
    && Expected(Start(j), r, x) != 0
    && (j.k >= 2 || Covers(LastOf(j.n, j.reqs, |j.reqs|), r, x))
  }

  lemma StartValid(j: Job)
    requires ValidJob(j)
    ensures ValidState(Start(j)) && Start(j).n == j.n && Start(j).reqs == j.reqs && |Start(j).workers| == j.k
  {
    StartKeeps(j);
  }

  lemma WrongIsUnfinished(t: State, r: nat, x: int)
    requires PoolInv(t) && PrintsWrong(t, r, x)
    ensures Held(t, r, x)
  {
    hide Product, CutFits, Conserved, IsSquare, Value, Expected, CellRight;
    RightIs(t, r, x);
    assert CellAccounted(t, r, x);
  }

  lemma OnlyAtRisk(j: Job, actions: seq<Action>, r: nat, x: int)
    requires ValidJob(j) && CanRun(Start(j), actions) && PrintsWrong(After(Start(j), actions), r, x)
    ensures AtRisk(j, r, x)
  {
    hide CanRun, After, PoolInv, Start, ValidState, Value, Product, SplitStart;
    StartValid(j);
    StartKeeps(j);
    StartZero(j);
    var t := After(Start(j), actions);
    RunZeroOrRight(Start(j), actions);
    RunKeepsJob(Start(j), actions);
    InvValid(t);
    SameExpected(Start(j), t, r, x);
    if j.k == 1 {
      StartNewest(j);
      RunNewest(Start(j), actions);
      WrongIsUnfinished(t, r, x);
      HeldIsLast(t, r, x);
    }
  }

  lemma StartZero(j: Job)
    requires ValidJob(j)
    ensures ValidState(Start(j)) && ZeroOrRight(Start(j))
  {
    hide ValidState, Start, Value, Expected;
    StartIsZero(j);
  }

  lemma StartNewest(j: Job)
    requires ValidJob(j) && j.k == 1
    ensures ValidState(Start(j)) && NewestLast(Start(j))
  {
    StartValid(j);
  }

  lemma SameExpected(s: State, t: State, r: nat, x: int)
    requires ValidState(s) && ValidState(t) && t.n == s.n && t.reqs == s.reqs && r < |s.reqs| && 0 <= x < s.n * s.n
    ensures Expected(t, r, x) == Expected(s, r, x)
  {
  }

  lemma HeldIsLast(t: State, r: nat, x: int)
    requires PoolInv(t) && ValidState(t) && NewestLast(t) && t.front == Synchronized && Held(t, r, x)
    ensures t.reqs != [] && Covers(LastOf(t.n, t.reqs, |t.reqs|), r, x)
  {
    hide IsSquare, SplitStart, CutFits, Conserved, CellsAccounted;
    assert Holds(t.workers[0], r, x);
    assert ValidWorker(t.n, |t.reqs|, t.workers[0]);
  }

  lemma IndexInRange(s: State, r: nat, x: int)
    requires ValidState(s) && r < |s.reqs| && 0 <= x < s.n * s.n
    ensures TotalUpTo(s.reqs, r) <= WorkIndex(s, r, x) < TotalUpTo(s.reqs, r + 1)
    ensures 0 <= WorkIndex(s, r, x) < Works(s)
  {
    hide IsSquare;
    ExactSplit(s.n * s.n, s.reqs[r].numWorks, x);
    TotalMonotone(s.reqs, 0, r);
    TotalMonotone(s.reqs, r + 1, |s.reqs|);
  }

  lemma LastHasLastIndex(s: State, r: nat, x: int)
    requires ValidState(s) && s.reqs != [] && 0 <= x < s.n * s.n && Covers(LastOf(s.n, s.reqs, |s.reqs|), r, x)
    ensures WorkIndex(s, r, x) == Works(s) - 1
  {
    hide IsSquare, WorkIndex;
    var numWorks := s.reqs[r].numWorks;
    SplitEnds(s.n * s.n, numWorks);
    IndexIs(s, r, x, numWorks - 1);
  }

  lemma LinedPushes(s: State)
    requires Lined(s, 0) && ValidState(s) && !s.front.Announce? && Pushed(s) < Works(s)
    ensures s.front.Pushing?
  {
    hide PoolInv;
    FrontHasMore(s);
  }

  /** The works after the one that is held are done by a second worker, if there are any. */
  lemma FinishRest(s: State, g: int) returns (t: State)
    requires Lined(s, 1) && ValidState(s) && Pushed(s) == g + 1 <= Works(s)
    requires |s.workers| >= 2 || g + 1 == Works(s)
    ensures Reaches(s, t) && Lined(t, 1) && SameJob(s, t) && t.front == SyncTest && OnlyWorks(s, t, g + 1, Works(s))
  {
    hide PoolInv, Reaches, Pushed, OnlyWorks, TotalUpTo, ValidState;
    FrontHasMore(s);
    if g + 1 == Works(s) {
      ReachSelf(s);
      t := s;
      NothingWritten(s, s, g + 1);
    } else {
      t := FinishMany(s, 1, Works(s));
      LinedValid(t, 1);
      FrontHasMore(t);
    }
  }

  /** The work that the cell belongs to is taken and not begun, and all others are done. */
  lemma HoldTheWork(j: Job, r: nat, x: int) returns (t: State)
    requires ValidJob(j) && AtRisk(j, r, x)
    ensures Reaches(Start(j), t) && Lined(t, 1) && t.front == SyncTest && t.n == j.n && t.reqs == j.reqs
    ensures Value(t, r, x) == 0
  {
    hide Lined, Reaches, Start, PoolInv, Value, Expected, Pushed, OnlyWorks, TotalUpTo, WorkIndex, ValidState, LastOf;
    StartValid(j);
    StartLined(j);
    StartIsZero(j);
    var s := Start(j);
    LinedValid(s, 0);
    var g := WorkIndex(s, r, x);
    IndexInRange(s, r, x);
    var s1 := FinishMany(s, 0, g);
    LinedValid(s1, 0);
    LinedPushes(s1);
    var s2 := HoldOne(s1, 0);
    LinedValid(s2, 1);
    ReachTrans(s, s1, s2);
    if j.k == 1 { LastHasLastIndex(s, r, x); }
    t := FinishRest(s2, g);
    ReachTrans(s, s2, t);
    SameIndex(s, s2, r, x);
    KeptValue(s, s1, 0, g, r, x);
    SameValue(s1, s2, r, x);
    KeptValue(s2, t, g + 1, Works(s2), r, x);
  }

  lemma KeptValue(s: State, t: State, from: int, to: int, r: nat, x: int)
    requires OnlyWorks(s, t, from, to) && r < |s.reqs| && 0 <= x < s.n * s.n && !(from <= WorkIndex(s, r, x) < to)
    ensures Value(t, r, x) == Value(s, r, x)
  {
    hide Value, WorkIndex;
  }

  lemma SameValue(s: State, t: State, r: nat, x: int)
    requires t.c == s.c && t.n == s.n
    ensures Value(t, r, x) == Value(s, r, x)
  {
  }

  lemma SyncPrints(s: State, r: nat, x: int)
    requires Lined(s, 1) && s.front == SyncTest && ValidState(s) && r < |s.reqs| && 0 <= x < s.n * s.n
    requires Value(s, r, x) != Expected(s, r, x)
    ensures var t := Apply(s, FrontStep(NoOne)); Reaches(s, t) && PrintsWrong(t, r, x)
  {
    hide IsSquare, CutFits, Conserved, Wakeups, CellsAccounted, Expected, Value;
    var a := FrontStep(NoOne);
    ApplyKeeps(s, a);
    ReachOne(s, a);
    SameValue(s, Apply(s, a), r, x);
    SameExpected(s, Apply(s, a), r, x);
  }

  lemma ReachedPrints(j: Job, t: State, r: nat, x: int)
    requires ValidJob(j) && Reaches(Start(j), t) && PrintsWrong(t, r, x)
    ensures CanPrintWrong(j, r, x)
  {
    hide CanRun, After, PrintsWrong, Start, Fits;
    var a :| CanRun(Start(j), a) && Fits(Start(j), a) && After(Start(j), a) == t;
  }

  /** main.c prints a cell wrong in some run exactly when the cell ought not to be 0 and, with a single worker, it
      belongs to the last work of the job. */
  lemma PrintedWrongExactly(j: Job, r: nat, x: int)
    requires ValidJob(j)
    ensures CanPrintWrong(j, r, x) <==> AtRisk(j, r, x)
  {
    hide CanRun, After, Fits, Start, PrintsWrong, Value, Expected, Lined, Reaches, Apply, ValidState;
    forall actions: seq<Action>
      | CanRun(Start(j), actions) && Fits(Start(j), actions) && PrintsWrong(After(Start(j), actions), r, x)
      ensures AtRisk(j, r, x)
    {
      OnlyAtRisk(j, actions, r, x);
    }
    if AtRisk(j, r, x) {
      StartValid(j);
      var s := HoldTheWork(j, r, x);
      LinedValid(s, 1);
      SameExpected(Start(j), s, r, x);
      SyncPrints(s, r, x);
      var t := Apply(s, FrontStep(NoOne));
      ReachTrans(Start(j), s, t);
      ReachedPrints(j, t, r, x);
    }
  }
}
