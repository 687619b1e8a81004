/** What every state of a run of the pool satisfies, and what that gives when the program ends. */
module PoolInvariant {
  import opened ThreadPool
  import opened PoolSplit

  // ---- counting ----

  function TotalUpTo(reqs: seq<Request>, r: nat): int
    requires r <= |reqs|
  {
    if r == 0 then 0 else TotalUpTo(reqs, r - 1) + reqs[r - 1].numWorks
  }

  /** The works announced so far, and the works pushed so far: both follow from where the frontend is. */
  function Announced(s: State): int
    requires ValidState(s)
  {
    match s.front
    case Announce(r) => TotalUpTo(s.reqs, r)
    case Pushing(r, _, _) => TotalUpTo(s.reqs, r + 1)
    case _ => TotalUpTo(s.reqs, |s.reqs|)
  }

  function Pushed(s: State): int
    requires ValidState(s)
  {
    match s.front
    case Announce(r) => TotalUpTo(s.reqs, r)
    case Pushing(r, i, _) => TotalUpTo(s.reqs, r) + i
    case _ => TotalUpTo(s.reqs, |s.reqs|)
  }

  /** How many workers hold a work. */
  function Busy(ws: seq<Worker>): nat {
    if ws == [] then 0 else Busy(ws[..|ws| - 1]) + if ws[|ws| - 1].Computing? then 1 else 0
  }

  function BusyOne(w: Worker): nat {
    if w.Computing? then 1 else 0
  }

  lemma {:induction false} BusyUpdate(ws: seq<Worker>, k: nat, w: Worker)
    requires k < |ws|
    ensures Busy(ws[k := w]) == Busy(ws) - BusyOne(ws[k]) + BusyOne(w)
  {
    var last := |ws| - 1;
    if k == last {
      assert ws[k := w][..last] == ws[..last];
    } else {
      assert ws[k := w][..last] == ws[..last][k := w];
      BusyUpdate(ws[..last], k, w);
    }
  }

  lemma {:induction false} BusyAtMost(ws: seq<Worker>)
    ensures Busy(ws) <= |ws|
  {
    if ws == [] {
    } else {
      BusyAtMost(ws[..|ws| - 1]);
    }
  }

  lemma {:induction false} BusySame(ws: seq<Worker>, vs: seq<Worker>)
    requires |ws| == |vs| && forall k :: 0 <= k < |ws| ==> ws[k].Computing? == vs[k].Computing?
    ensures Busy(ws) == Busy(vs)
  {
    if ws == [] {
    } else {
      BusySame(ws[..|ws| - 1], vs[..|vs| - 1]);
    }
  }

  lemma {:induction false} NobodyBusy(ws: seq<Worker>)
    requires forall k :: 0 <= k < |ws| ==> !ws[k].Computing?
    ensures Busy(ws) == 0
  {
    if ws == [] {
    } else {
      NobodyBusy(ws[..|ws| - 1]);
    }
  }

  // ---- the invariant ----

  /** Work conservation: what was pushed is queued, held by one worker each, or completed. */
  ghost predicate Conserved(s: State)
    requires ValidState(s)
  {
    && s.pool.totalWorks == Announced(s)
    && Pushed(s) == |s.pool.queue| + Busy(s.workers) + s.pool.completed
    && s.pool.completed >= 0
  }

  ghost predicate Able(w: Worker) { w == AtLock || w.Computing? }

  /** No lost wake-up, and how the pool shuts down. */
  ghost predicate Wakeups(s: State) {
    && (s.pool.queue != [] ==> exists k :: 0 <= k < |s.workers| && Able(s.workers[k]))
    && (s.pool.terminate <==> s.front.Joining? || s.front.Done?)
    && (s.front.Synchronized? || s.pool.terminate ==> s.pool.queue == [])
    && (forall k :: 0 <= k < |s.workers| ==>
          && (s.workers[k] == Exited ==> s.pool.terminate)
          && (s.pool.terminate ==> s.workers[k] != Blocked))
    && (s.front.Joining? ==> forall k :: 0 <= k < s.front.k <= |s.workers| ==> s.workers[k] == Exited)
    && (s.front.Done? ==> forall k :: 0 <= k < |s.workers| ==> s.workers[k] == Exited)
  }

  /** Cell x of request r has its value. */
  ghost predicate CellRight(s: State, r: nat, x: int)
    requires ValidState(s) && r < |s.reqs| && 0 <= x < s.n * s.n
  {
    CellInRange(x, s.n);
    s.c[r][x / s.n][x % s.n] == Product(s.reqs[r].a, s.reqs[r].b, x / s.n, x % s.n, s.n)
  }

  predicate Covers(w: Work, r: nat, x: int) {
    w.req == r && w.start <= x < w.end
  }

  /** Cell x of request r is still to be pushed. */
  predicate Unpushed(s: State, r: nat, x: int) {
    match s.front
    case Announce(q) => r >= q
    case Pushing(q, _, start) => r > q || (r == q && x >= start)
    case _ => false
  }

  predicate Queued(s: State, r: nat, x: int) {
    exists j :: 0 <= j < |s.pool.queue| && Covers(s.pool.queue[j], r, x)
  }

  predicate Holds(w: Worker, r: nat, x: int) {
    w.Computing? && w.work.req == r && w.i <= x < w.work.end
  }

  predicate Held(s: State, r: nat, x: int) {
    exists k :: 0 <= k < |s.workers| && Holds(s.workers[k], r, x)
  }

  ghost predicate CellAccounted(s: State, r: nat, x: int)
    requires ValidState(s) && r < |s.reqs| && 0 <= x < s.n * s.n
  {
    Unpushed(s, r, x) || Queued(s, r, x) || Held(s, r, x) || CellRight(s, r, x)
  }

  ghost predicate CellsAccounted(s: State)
    requires ValidState(s)
  {
    forall r: nat, x: int :: r < |s.reqs| && 0 <= x < s.n * s.n ==> CellAccounted(s, r, x)
  }

  /** The frontend has cut the cells of the current request up to `start`. */
  ghost predicate CutFits(s: State)
    requires ValidState(s)
  {
    s.front.Pushing? ==>
      s.front.start == SplitStart(s.n * s.n, s.reqs[s.front.r].numWorks, s.front.i)
  }

  ghost predicate PoolInv(s: State) {
    |s.workers| >= 1 && ValidState(s) && CutFits(s) && Conserved(s) && Wakeups(s) && CellsAccounted(s)
  }

  // ---- waking up ----

  /** A wake-up only sends blocked threads back to their test. */
  lemma WakeKeeps(s: State, w: Waker)
    requires PoolInv(s) && (w == NoOne || IsBlocked(s, w))
    ensures PoolInv(Wake(s, w))
  {
    hide SplitStart, IsSquare, Product, Calculation, TotalUpTo;
    var t := Wake(s, w);
    if w.ToWorker? {
      BusyUpdate(s.workers, w.k, AtLock);
      assert Able(t.workers[w.k]);
    }
    WakeCells(s, w);
  }

  lemma WakeCells(s: State, w: Waker)
    requires ValidState(s) && CellsAccounted(s) && (w == NoOne || IsBlocked(s, w))
    ensures ValidState(Wake(s, w)) && CellsAccounted(Wake(s, w))
  {
    hide IsSquare, Product;
    var t := Wake(s, w);
    forall r: nat, x: int | r < |s.reqs| && 0 <= x < s.n * s.n ensures CellAccounted(t, r, x) {
      assert CellAccounted(s, r, x);
      if Held(s, r, x) {
        var k :| 0 <= k < |s.workers| && Holds(s.workers[k], r, x);
        assert Holds(t.workers[k], r, x);
      }
    }
  }

  // ---- steps of the frontend ----

  lemma AnnounceKeeps(s: State)
    requires PoolInv(s) && s.front.Announce?
    ensures PoolInv(ApplyFront(s, NoOne))
  {
    hide IsSquare, Product, Calculation, Transpose;
    var t := ApplyFront(s, NoOne);
    forall r: nat, x: int | r < |s.reqs| && 0 <= x < s.n * s.n ensures CellAccounted(t, r, x) {
      assert CellAccounted(s, r, x);
      assert Unpushed(s, r, x) ==> Unpushed(t, r, x);
      assert Queued(s, r, x) == Queued(t, r, x) && Held(s, r, x) == Held(t, r, x);
    }
  }

  /** The work that a push adds starts where the last one ended, and ends within the cells of the request. */
  lemma PushedWork(s: State)
    requires ValidState(s) && CutFits(s) && s.front.Pushing?
    ensures var f := s.front; var m := s.reqs[f.r].numWorks; var end := f.start + Share(s.n * s.n, m, f.i);
      && end == SplitStart(s.n * s.n, m, f.i + 1)
      && 0 <= f.start <= end <= s.n * s.n
      && (f.i + 1 == m ==> end == s.n * s.n)
  {
    var f := s.front;
    var m := s.reqs[f.r].numWorks;
    SplitEnds(s.n * s.n, m);
    SplitMonotone(s.n * s.n, m, f.i, f.i + 1);
    SplitMonotone(s.n * s.n, m, f.i + 1, m);
  }

  lemma PushValid(s: State, wake: Waker)
    requires ValidState(s) && CutFits(s) && s.front.Pushing? && (wake == NoOne || IsBlocked(s, wake))
    ensures var t := ApplyFront(s, wake); ValidState(t) && CutFits(t)
  {
    hide IsSquare, SplitStart, Share;
    PushedWork(s);
  }

  lemma PushCounts(s: State, wake: Waker)
    requires ValidState(s) && CutFits(s) && Conserved(s) && s.front.Pushing? && (wake == NoOne || IsBlocked(s, wake))
    ensures var t := ApplyFront(s, wake); ValidState(t) && Conserved(t)
  {
    PushValid(s, wake);
    hide IsSquare, SplitStart, Share, ValidState;
    if wake.ToWorker? { BusyUpdate(s.workers, wake.k, AtLock); }
  }

  lemma PushWakes(s: State, wake: Waker)
    requires |s.workers| >= 1 && ValidState(s) && Wakeups(s) && s.front.Pushing? && MayWake(s, wake)
    ensures Wakeups(ApplyFront(s, wake))
  {
    hide ValidState, Share;
    var t := ApplyFront(s, wake);
    if wake == NoOne {
      assert Able(t.workers[0]);
    } else {
      assert Able(t.workers[wake.k]);
    }
  }

  lemma PushCells(s: State, wake: Waker)
    requires ValidState(s) && CutFits(s) && CellsAccounted(s) && s.front.Pushing?
    requires wake == NoOne || IsBlocked(s, wake)
    ensures var t := ApplyFront(s, wake); ValidState(t) && CellsAccounted(t)
  {
    PushValid(s, wake);
    PushedWork(s);
    hide IsSquare, Product, SplitStart, Share, ValidState, CutFits;
    var t := ApplyFront(s, wake);
    var f := s.front;
    var last := |t.pool.queue| - 1;
    assert t.reqs == s.reqs && t.c == s.c && t.n == s.n;
    forall r: nat, x: int | r < |s.reqs| && 0 <= x < s.n * s.n ensures CellAccounted(t, r, x) {
      assert CellAccounted(s, r, x);
      if Unpushed(s, r, x) {
        if !Unpushed(t, r, x) { assert Covers(t.pool.queue[last], r, x); }
      } else if Queued(s, r, x) {
        var j :| 0 <= j < |s.pool.queue| && Covers(s.pool.queue[j], r, x);
        assert Covers(t.pool.queue[j], r, x);
      } else if Held(s, r, x) {
        var k :| 0 <= k < |s.workers| && Holds(s.workers[k], r, x);
        assert Holds(t.workers[k], r, x);
      }
    }
  }

  lemma PushKeeps(s: State, wake: Waker)
    requires PoolInv(s) && s.front.Pushing? && MayWake(s, wake)
    ensures PoolInv(ApplyFront(s, wake))
  {
    PushValid(s, wake);
    PushCounts(s, wake);
    PushWakes(s, wake);
    PushCells(s, wake);
    hide ValidState, CutFits, Conserved, Wakeups, CellsAccounted;
  }

  /** The frontend's steps after the last push change neither the works nor the cells. */
  lemma LaterFrontKeeps(s: State)
    requires PoolInv(s) && Enabled(s, FrontStep(NoOne)) && !s.front.Announce? && !s.front.Pushing?
    ensures PoolInv(ApplyFront(s, NoOne))
  {
    hide IsSquare, Product, SplitStart, Share;
    var t := ApplyFront(s, NoOne);
    BusySame(s.workers, t.workers);
    LaterFrontCells(s);
    if s.pool.queue != [] {
      var k :| 0 <= k < |s.workers| && Able(s.workers[k]);
      assert Able(t.workers[k]);
    }
  }

  lemma LaterFrontCells(s: State)
    requires ValidState(s) && CellsAccounted(s) && !s.front.Announce? && !s.front.Pushing?
    ensures var t := ApplyFront(s, NoOne); ValidState(t) && CellsAccounted(t)
  {
    hide IsSquare, Product;
    var t := ApplyFront(s, NoOne);
    forall r: nat, x: int | r < |s.reqs| && 0 <= x < s.n * s.n ensures CellAccounted(t, r, x) {
      assert CellAccounted(s, r, x);
      if Held(s, r, x) {
        var k :| 0 <= k < |s.workers| && Holds(s.workers[k], r, x);
        assert Holds(t.workers[k], r, x);
      }
    }
  }

  // ---- steps of a worker ----

  lemma EnterCounts(s: State, k: nat)
    requires PoolInv(s) && k < |s.workers| && s.workers[k] == AtLock
    ensures var t := ApplyWorker(s, k, NoOne); ValidState(t) && CutFits(t) && Conserved(t)
  {
    hide IsSquare, SplitStart, Wakeups, CellsAccounted;
    BusyUpdate(s.workers, k, ApplyWorker(s, k, NoOne).workers[k]);
  }

  lemma EnterWakes(s: State, k: nat)
    requires ValidState(s) && Wakeups(s) && k < |s.workers| && s.workers[k] == AtLock
    ensures Wakeups(ApplyWorker(s, k, NoOne))
  {
    hide ValidState;
    var t := ApplyWorker(s, k, NoOne);
    if s.pool.queue != [] { assert Able(t.workers[k]); }
  }

  lemma EnterCells(s: State, k: nat)
    requires ValidState(s) && CellsAccounted(s) && k < |s.workers| && s.workers[k] == AtLock
    requires ValidState(ApplyWorker(s, k, NoOne))
    ensures CellsAccounted(ApplyWorker(s, k, NoOne))
  {
    hide IsSquare, Product, ValidState;
    var t := ApplyWorker(s, k, NoOne);
    forall r: nat, x: int | r < |s.reqs| && 0 <= x < s.n * s.n ensures CellAccounted(t, r, x) {
      assert CellAccounted(s, r, x);
      if Queued(s, r, x) {
        var j :| 0 <= j < |s.pool.queue| && Covers(s.pool.queue[j], r, x);
        if j == 0 { assert Holds(t.workers[k], r, x); } else { assert Covers(t.pool.queue[j - 1], r, x); }
      } else if Held(s, r, x) {
        var h :| 0 <= h < |s.workers| && Holds(s.workers[h], r, x);
        assert Holds(t.workers[h], r, x);
      }
    }
  }

  lemma EnterKeeps(s: State, k: nat)
    requires PoolInv(s) && k < |s.workers| && s.workers[k] == AtLock
    ensures PoolInv(ApplyWorker(s, k, NoOne))
  {
    EnterCounts(s, k);
    EnterWakes(s, k);
    EnterCells(s, k);
    hide ValidState, CutFits, Conserved, Wakeups, CellsAccounted;
  }

  /** The matrices after one cell: right where it was computed, as before everywhere else. */
  lemma CellComputed(s: State, k: nat)
    requires ValidState(s) && k < |s.workers| && s.workers[k].Computing? && s.workers[k].i < s.workers[k].work.end
    ensures var t := ComputeCell(s, k); var w := s.workers[k];
      && ValidState(t) && CellRight(t, w.work.req, w.i)
      && (forall r: nat, x: int :: r < |s.reqs| && 0 <= x < s.n * s.n && CellRight(s, r, x) ==> CellRight(t, r, x))
  {
    hide Product, Calculation;
    var (w, i) := (s.workers[k].work, s.workers[k].i);
    CellInRange(i, s.n);
    var (row, col) := (i / s.n, i % s.n);
    var t := ComputeCell(s, k);
    CalculationIsProduct(s.reqs[w.req].a, s.reqs[w.req].b, s.n, row, col, s.n);
    SetCellSquare(s.c[w.req], s.n, row, col, t.c[w.req][row][col]);
    forall r: nat, x: int | r < |s.reqs| && 0 <= x < s.n * s.n && CellRight(s, r, x) ensures CellRight(t, r, x) {
      CellInRange(x, s.n);
    }
  }

  lemma SetCellSquare(m: Matrix, n: nat, row: nat, col: nat, v: int)
    requires IsSquare(m, n) && row < n && col < n
    ensures IsSquare(SetCell(m, row, col, v), n)
  {
  }

  lemma CellKeeps(s: State, k: nat)
    requires PoolInv(s) && k < |s.workers| && s.workers[k].Computing? && s.workers[k].i < s.workers[k].work.end
    ensures PoolInv(ComputeCell(s, k))
  {
    CellComputed(s, k);
    CellCounts(s, k);
    CellWakes(s, k);
    CellCells(s, k);
    hide ValidState, CutFits, Conserved, Wakeups, CellsAccounted, ComputeCell;
  }

  lemma CellCounts(s: State, k: nat)
    requires ValidState(s) && CutFits(s) && Conserved(s) && k < |s.workers| && s.workers[k].Computing?
    requires s.workers[k].i < s.workers[k].work.end && ValidState(ComputeCell(s, k))
    ensures CutFits(ComputeCell(s, k)) && Conserved(ComputeCell(s, k))
    ensures |ComputeCell(s, k).workers| == |s.workers|
  {
    hide ValidState, SplitStart, SetCell, Calculation, Transpose;
    BusyUpdate(s.workers, k, ComputeCell(s, k).workers[k]);
  }

  lemma CellWakes(s: State, k: nat)
    requires ValidState(s) && Wakeups(s) && k < |s.workers| && s.workers[k].Computing?
    requires s.workers[k].i < s.workers[k].work.end
    ensures Wakeups(ComputeCell(s, k))
  {
    hide ValidState, SetCell, Calculation, Transpose;
    assert Able(ComputeCell(s, k).workers[k]);
  }

  lemma CellCells(s: State, k: nat)
    requires ValidState(s) && CellsAccounted(s) && k < |s.workers| && s.workers[k].Computing?
    requires s.workers[k].i < s.workers[k].work.end && ValidState(ComputeCell(s, k))
    ensures CellsAccounted(ComputeCell(s, k))
  {
    CellComputed(s, k);
    hide ValidState, SetCell, Calculation, Transpose, CellRight;
    var t := ComputeCell(s, k);
    forall r: nat, x: int | r < |s.reqs| && 0 <= x < s.n * s.n ensures CellAccounted(t, r, x) {
      assert CellAccounted(s, r, x);
      if Unpushed(s, r, x) || CellRight(s, r, x) {
      } else if Queued(s, r, x) {
        assert Queued(t, r, x);
      } else {
        var h :| 0 <= h < |s.workers| && Holds(s.workers[h], r, x);
        if h != k || x != s.workers[k].i { assert Holds(t.workers[h], r, x); }
      }
    }
  }

  /** The end of a work, before anybody is woken. */
  function Ended(s: State, k: nat): State
    requires k < |s.workers|
  {
    s.(pool := Finish(s.pool).0, workers := s.workers[k := AtLock])
  }

  lemma EndedKeeps(s: State, k: nat)
    requires PoolInv(s) && k < |s.workers| && s.workers[k].Computing? && s.workers[k].i >= s.workers[k].work.end
    ensures PoolInv(Ended(s, k))
  {
    hide IsSquare, SplitStart, Product, CellsAccounted;
    BusyUpdate(s.workers, k, AtLock);
    assert Able(Ended(s, k).workers[k]);
    EndedCells(s, k);
  }

  lemma EndedCells(s: State, k: nat)
    requires ValidState(s) && CellsAccounted(s) && k < |s.workers|
    requires s.workers[k].Computing? && s.workers[k].i >= s.workers[k].work.end
    ensures ValidState(Ended(s, k)) && CellsAccounted(Ended(s, k))
  {
    hide IsSquare, Product;
    var t := Ended(s, k);
    forall r: nat, x: int | r < |s.reqs| && 0 <= x < s.n * s.n ensures CellAccounted(t, r, x) {
      assert CellAccounted(s, r, x);
      if Held(s, r, x) {
        var h :| 0 <= h < |s.workers| && Holds(s.workers[h], r, x);
        assert Holds(t.workers[h], r, x);
      }
    }
  }

  lemma FinishKeeps(s: State, k: nat, wake: Waker)
    requires PoolInv(s) && k < |s.workers| && s.workers[k].Computing? && s.workers[k].i >= s.workers[k].work.end
    requires wake == NoOne || IsBlocked(s, wake)
    ensures PoolInv(ApplyWorker(s, k, wake))
  {
    EndedKeeps(s, k);
    hide PoolInv, ValidState;
    WakeKeeps(Ended(s, k), wake);
  }

  // ---- every step and every run ----

  lemma ApplyKeeps(s: State, a: Action)
    requires PoolInv(s) && Enabled(s, a)
    ensures PoolInv(Apply(s, a))
  {
    hide PoolInv, ApplyFront;
    InvValid(s);
    match a {
      case FrontStep(w) =>
        if s.front.Announce? { AnnounceKeeps(s); }
        else if s.front.Pushing? { PushKeeps(s, w); }
        else { LaterFrontKeeps(s); }
      case WorkerStep(k, w) =>
        match s.workers[k] {
          case AtLock => EnterKeeps(s, k);
          case Computing(work, i) =>
            if i < work.end { CellKeeps(s, k); } else { FinishKeeps(s, k, w); }
          case _ =>
        }
      case Spurious(w) => WakeKeeps(s, w);
    }
  }

  lemma InvValid(s: State)
    requires PoolInv(s)
    ensures ValidState(s)
  {
  }

  /** The actions can be taken one after the other from s. */
  ghost predicate CanRun(s: State, actions: seq<Action>)
    decreases |actions|
  {
    actions == [] || (ValidState(s) && Enabled(s, actions[0]) && CanRun(Apply(s, actions[0]), actions[1..]))
  }

  ghost function After(s: State, actions: seq<Action>): State
    requires CanRun(s, actions)
    decreases |actions|
  {
    if actions == [] then s else After(Apply(s, actions[0]), actions[1..])
  }

  /** The ring of the program holds everything that is queued, from s on and through the run: beyond MAX_QUEUE_SIZE
      works a push overwrites the oldest one, and the queue of the model is not that of the program any more. */
  ghost predicate Fits(s: State, actions: seq<Action>)
    requires CanRun(s, actions)
    decreases |actions|
  {
    |s.pool.queue| <= MAX_QUEUE_SIZE && (actions == [] || Fits(Apply(s, actions[0]), actions[1..]))
  }

  lemma {:induction false} RunKeeps(s: State, actions: seq<Action>)
    requires PoolInv(s) && CanRun(s, actions)
    ensures PoolInv(After(s, actions))
    decreases |actions|
  {
    hide PoolInv, Apply, Enabled;
    if actions == [] {
    } else {
      ApplyKeeps(s, actions[0]);
      RunKeeps(Apply(s, actions[0]), actions[1..]);
    }
  }

  lemma StartKeeps(j: Job)
    requires ValidJob(j)
    ensures PoolInv(Start(j))
  {
    var s := Start(j);
    NobodyBusy(s.workers);
    assert Able(s.workers[0]);
    forall r: nat, x: int | r < |s.reqs| && 0 <= x < s.n * s.n ensures CellAccounted(s, r, x) {
      assert Unpushed(s, r, x);
    }
  }

  lemma ReachableInv(j: Job, actions: seq<Action>)
    requires ValidJob(j) && CanRun(Start(j), actions)
    ensures PoolInv(After(Start(j), actions))
  {
    StartKeeps(j);
    RunKeeps(Start(j), actions);
  }

  lemma {:induction false} RunKeepsJob(s: State, actions: seq<Action>)
    requires CanRun(s, actions)
    ensures var t := After(s, actions); t.n == s.n && t.reqs == s.reqs && |t.workers| == |s.workers|
    decreases |actions|
  {
    if actions == [] {
    } else {
      RunKeepsJob(Apply(s, actions[0]), actions[1..]);
    }
  }

  // ---- what it gives ----

  /** Any interleaving in which the ring does not overflow computes the product: when tpool_destroy has returned, every
      entry of every result is the entry of the product of the matrices of its request, and all works are completed. */
  lemma EveryInterleavingComputesTheProducts(j: Job, actions: seq<Action>)
    requires ValidJob(j) && CanRun(Start(j), actions) && After(Start(j), actions).front.Done?
    requires Fits(Start(j), actions)
    ensures var t := After(Start(j), actions);
      && |t.c| == |j.reqs| && t.pool.completed == t.pool.totalWorks == TotalUpTo(j.reqs, |j.reqs|)
      && forall r, row: nat, col: nat :: 0 <= r < |j.reqs| && row < j.n && col < j.n ==>
           && IsSquare(t.c[r], j.n) && IsSquare(j.reqs[r].a, j.n) && IsSquare(j.reqs[r].b, j.n)
           && t.c[r][row][col] == Product(j.reqs[r].a, j.reqs[r].b, row, col, j.n)
  {
    hide Product, CanRun, After, CellsAccounted;
    ReachableInv(j, actions);
    RunKeepsJob(Start(j), actions);
    var t := After(Start(j), actions);
    NobodyBusy(t.workers);
    forall r, row: nat, col: nat | 0 <= r < |j.reqs| && row < j.n && col < j.n
      ensures IsSquare(t.c[r], j.n) && t.c[r][row][col] == Product(j.reqs[r].a, j.reqs[r].b, row, col, j.n)
    {
      CellWhenDone(t, r, row, col);
    }
  }

  lemma CellWhenDone(t: State, r: nat, row: nat, col: nat)
    requires PoolInv(t) && t.front.Done? && r < |t.reqs| && row < t.n && col < t.n
    ensures IsSquare(t.c[r], t.n) && IsSquare(t.reqs[r].a, t.n) && IsSquare(t.reqs[r].b, t.n)
    ensures t.c[r][row][col] == Product(t.reqs[r].a, t.reqs[r].b, row, col, t.n)
  {
    hide Product;
    var x := row * t.n + col;
    EntryOf(t.n, row, col);
    ProductGrows(t.n - 1, row, t.n);
    assert (t.n - 1) * t.n + t.n == t.n * t.n;
    assert CellAccounted(t, r, x);
    assert !Held(t, r, x);
  }

  /** When tpool_synchronize has returned, the works not completed are held by the workers, one each. */
  lemma SynchronizeLeavesAtMostOnePerWorker(j: Job, actions: seq<Action>)
    requires ValidJob(j) && CanRun(Start(j), actions) && After(Start(j), actions).front.Synchronized?
    ensures var t := After(Start(j), actions);
      && t.pool.queue == [] && t.pool.totalWorks == TotalUpTo(j.reqs, |j.reqs|)
      && t.pool.totalWorks - t.pool.completed == Busy(t.workers) <= j.k
  {
    hide IsSquare, CanRun, After, CellsAccounted;
    ReachableInv(j, actions);
    RunKeepsJob(Start(j), actions);
    BusyAtMost(After(Start(j), actions).workers);
  }

  /** In every reachable state: a queued work has a worker that is not blocked; once the pool is told to terminate no
      worker is blocked any more, and a worker returns only then, with the queue empty. */
  lemma NoLostWakeup(j: Job, actions: seq<Action>)
    requires ValidJob(j) && CanRun(Start(j), actions)
    ensures var t := After(Start(j), actions);
      && (t.pool.queue != [] ==> exists k :: 0 <= k < |t.workers| && Able(t.workers[k]))
      && (t.pool.terminate ==> forall k :: 0 <= k < |t.workers| ==> t.workers[k] != Blocked)
      && (forall k :: 0 <= k < |t.workers| && t.workers[k] == Exited ==> t.pool.terminate && t.pool.queue == [])
  {
    hide IsSquare, CanRun, After, CellsAccounted;
    ReachableInv(j, actions);
  }
}
