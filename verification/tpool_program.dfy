/** The whole program of main.c on the pool as it is stored: every step of every thread, in any order, is the section of
    `TPool` that the thread is at, so the ring goes through exactly the queues of the runs of `ThreadPool`. */
module PoolProgram {
  import opened ThreadPool
  import opened PoolSplit
  import opened PoolInvariant
  import opened PoolProgress
  import opened PoolMonitor

  /** A push after which the ring still fits has found a free slot. */
  lemma PushHasRoom(s: State, w: Waker)
    requires ValidState(s) && s.front.Pushing? && Enabled(s, FrontStep(w))
    requires |Apply(s, FrontStep(w)).pool.queue| <= MAX_QUEUE_SIZE
    ensures |s.pool.queue| < MAX_QUEUE_SIZE
  {
    hide IsSquare;
  }

  class Program {
    const n: nat
    const reqs: seq<Request>
    const pool: TPool
    const workers: array<Worker>
    var front: Front
    var c: seq<Matrix>

    ghost predicate Valid()
      reads this, pool, pool.workQueue, workers
    {
      pool.Valid() && ValidState(Model())
    }

    ghost function Model(): State
      requires pool.Valid()
      reads this, pool, pool.workQueue, workers
    {
      State(n, reqs, c, pool.Model(), workers[..], front)
    }

    /** main up to the first request: the pool with its workers, and the result matrices full of zeros. */
    constructor (j: Job)
      requires ValidJob(j)
      ensures Valid() && Model() == Start(j) && fresh(pool) && fresh(pool.workQueue) && fresh(workers)
    {
      n, reqs := j.n, j.reqs;
      pool := new TPool(j.n);
      workers := new Worker[j.k](_ => AtLock);
      front := if j.reqs != [] then Announce(0) else SyncTest;
      c := seq(|j.reqs|, _ => Zeros(j.n));
      new;
      assert workers[..] == Start(j).workers;
      StartKeeps(j);
    }

    /** pthread_cond_signal reaches this thread, which goes back to its test. */
    method Signal(w: Waker)
      requires pool.Valid() && (w.ToWorker? ==> w.k < workers.Length)
      modifies this`front, workers
      ensures pool.Valid() && Model() == Wake(old(Model()), w)
    {
      match w
      case NoOne =>
      case ToWorker(k) => workers[k] := AtLock;
      case ToFront => front := SyncTest;
    }

    /** pthread_cond_broadcast. */
    method Broadcast()
      modifies workers
      ensures workers[..] == seq(workers.Length, k requires 0 <= k < workers.Length => Released(old(workers[k])))
    {
      var i := 0;
      while i < workers.Length
        invariant i <= workers.Length
        invariant forall k :: 0 <= k < i ==> workers[k] == Released(old(workers[k]))
        invariant forall k :: i <= k < workers.Length ==> workers[k] == old(workers[k])
      {
        if workers[i] == Blocked { workers[i] := AtLock; }
        i := i + 1;
      }
    }

    /** The frontend pushes a work and signals. */
    method PushTurn(w: Waker)
      requires Valid() && front.Pushing? && Enabled(Model(), FrontStep(w)) && pool.queueSize < MAX_QUEUE_SIZE
      modifies this`front, pool`rear, pool`queueSize, pool.workQueue, workers
      ensures pool.Valid() && Model() == ApplyFront(old(Model()), w)
    {
      hide IsSquare, ValidWork, ValidWorker;
      var r, i, start := front.r, front.i, front.start;
      var end := start + Share(n * n, reqs[r].numWorks, i);
      pool.PushWork(Work(r, start, end));
      front := if i + 1 < reqs[r].numWorks then Pushing(r, i + 1, end)
               else if r + 1 < |reqs| then Announce(r + 1) else SyncTest;
      Signal(w);
    }

    /** One step of the frontend. */
    method FrontTurn(w: Waker)
      requires Valid() && Enabled(Model(), FrontStep(w)) && (front.Pushing? ==> pool.queueSize < MAX_QUEUE_SIZE)
      modifies this`front, pool, pool.workQueue, workers
      ensures pool.Valid() && Model() == ApplyFront(old(Model()), w)
    {
      hide IsSquare, ValidWork, ValidWorker;
      match front
      case Announce(r) =>
        pool.Announce(reqs[r].numWorks);
        front := Pushing(r, 0, 0);
      case Pushing(_, _, _) => PushTurn(w);
      case SyncTest =>
        var waits := pool.MustWait();
        front := if waits then SyncBlocked else Synchronized;
      case Synchronized =>
        pool.Terminate();
        Broadcast();
        front := Joining(0);
      case Joining(k) => front := if k < workers.Length then Joining(k + 1) else Done;
      case _ =>
    }

    /** One step of worker k. */
    method WorkerTurn(k: nat, w: Waker)
      requires Valid() && Enabled(Model(), WorkerStep(k, w))
      modifies this`front, this`c, pool, workers
      ensures pool.Valid() && Model() == ApplyWorker(old(Model()), k, w)
    {
      hide IsSquare, ValidWork, ValidFront, Calculation, SetCell;
      match workers[k]
      case AtLock =>
        var found := pool.EnterSection();
        workers[k] := match found
          case Wait => Blocked
          case Quit => Exited
          case Got(work) => Computing(work, work.start);
      case Computing(work, i) =>
        if i < work.end {
          CellTurn(k);
        } else {
          var signals := pool.FinishSection();
          workers[k] := AtLock;
          if signals { Signal(w); }
        }
      case _ =>
    }

    /** One turn of the loop of worker k over its cells. */
    method CellTurn(k: nat)
      requires Valid() && k < workers.Length && workers[k].Computing? && workers[k].i < workers[k].work.end
      modifies this`c, workers
      ensures pool.Valid() && Model() == ComputeCell(old(Model()), k)
    {
      hide ValidFront, Calculation;
      var (work, i) := (workers[k].work, workers[k].i);
      assert ValidWorker(n, |reqs|, workers[..][k]);
      CellInRange(i, n);
      var row, col := i / n, i % n;
      var v := Calculation(n, reqs[work.req].a[row], Transpose(reqs[work.req].b, n)[col]);
      c := c[work.req := SetCell(c[work.req], row, col, v)];
      workers[k] := Computing(work, i + 1);
    }

    /** One step of whichever thread the schedule names, or a spurious wake-up. */
    method Turn(a: Action)
      requires Valid() && Enabled(Model(), a)
      requires a.FrontStep? && front.Pushing? ==> pool.queueSize < MAX_QUEUE_SIZE
      modifies this`front, this`c, pool, pool.workQueue, workers
      ensures pool.Valid() && Model() == Apply(old(Model()), a)
    {
      match a
      case FrontStep(w) => FrontTurn(w);
      case WorkerStep(k, w) => WorkerTurn(k, w);
      case Spurious(w) => Signal(w);
    }
  }

  /** Every result matrix is the product of the matrices of its request. */
  ghost predicate AreProducts(j: Job, c: seq<Matrix>)
    requires ValidJob(j)
  {
    |c| == |j.reqs| && forall r, row: nat, col: nat :: 0 <= r < |c| && row < j.n && col < j.n ==>
      && IsSquare(c[r], j.n) && IsSquare(j.reqs[r].a, j.n) && IsSquare(j.reqs[r].b, j.n)
      && c[r][row][col] == Product(j.reqs[r].a, j.reqs[r].b, row, col, j.n)
  }

  lemma SquareResults(j: Job, actions: seq<Action>)
    requires ValidJob(j) && CanRun(Start(j), actions)
    ensures var t := After(Start(j), actions);
      |t.c| == |j.reqs| && forall r :: 0 <= r < |t.c| ==> IsSquare(t.c[r], j.n)
  {
    hide CanRun, After, CutFits, Conserved, Wakeups, CellsAccounted;
    ReachableInv(j, actions);
    RunKeepsJob(Start(j), actions);
  }

  lemma ResultsOf(j: Job, actions: seq<Action>)
    requires ValidJob(j) && CanRun(Start(j), actions) && Fits(Start(j), actions)
    ensures var t := After(Start(j), actions); t.front.Done? ==> AreProducts(j, t.c)
  {
    hide CanRun, After, Product, Start, Fits;
    if After(Start(j), actions).front.Done? {
      SquareResults(j, actions);
      EveryInterleavingComputesTheProducts(j, actions);
    }
  }

  /** A job under any schedule of its threads that fits the ring, as all do with at most MAX_QUEUE_SIZE works: the ring,
      the positions of the threads and the matrices are at the end those of the run.  So when the frontend has returned
      the matrices are the products. */
  method RunJob(j: Job, actions: seq<Action>) returns (p: Program)
    requires ValidJob(j) && CanRun(Start(j), actions) && Fits(Start(j), actions)
    ensures p.Valid() && p.Model() == After(Start(j), actions)
    ensures p.front.Done? ==> AreProducts(j, p.c)
  {
    hide PoolInv, Apply, Enabled, ValidState, AreProducts;
    StartKeeps(j);
    ResultsOf(j, actions);
    p := new Program(j);
    var i := 0;
    while i < |actions|
      invariant i <= |actions| && fresh(p) && fresh(p.pool) && fresh(p.pool.workQueue) && fresh(p.workers)
      invariant p.Valid() && PoolInv(p.Model())
      invariant CanRun(p.Model(), actions[i..]) && Fits(p.Model(), actions[i..])
      invariant After(p.Model(), actions[i..]) == After(Start(j), actions)
    {
      assert actions[i..][1..] == actions[i + 1..];
      ApplyKeeps(p.Model(), actions[i]);
      if p.front.Pushing? && actions[i].FrontStep? { PushHasRoom(p.Model(), actions[i].wake); }
      InvValid(Apply(p.Model(), actions[i]));
      p.Turn(actions[i]);
      i := i + 1;
    }
  }
}
