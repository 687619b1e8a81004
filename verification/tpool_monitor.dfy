/** tpool.c as it is written: the pool's fields and ring changed in place under the mutex, and the loops over matrices
    outside it.  Each section does to `Model` what the function of `ThreadPool` does; `PoolProgram` drives them through
    whole runs. */
module PoolMonitor {
  import opened ThreadPool
  import opened PoolSplit

  /** The works in the k slots of the ring from the front on. */
  function RingContents(arr: seq<Work>, front: nat, k: nat): seq<Work>
    requires |arr| == MAX_QUEUE_SIZE
  {
    seq(k, i requires 0 <= i => arr[(front + i) % MAX_QUEUE_SIZE])
  }

  lemma SlotsDiffer(front: nat, i: nat, k: nat)
    requires i < k < MAX_QUEUE_SIZE
    ensures (front + i) % MAX_QUEUE_SIZE != (front + k) % MAX_QUEUE_SIZE
  {
  }

  /** A push at the rear of a ring that has room appends to its contents. */
  lemma RingPush(arr: seq<Work>, front: nat, k: nat, w: Work)
    requires |arr| == MAX_QUEUE_SIZE && k < MAX_QUEUE_SIZE
    ensures RingContents(arr[(front + k) % MAX_QUEUE_SIZE := w], front, k + 1) == RingContents(arr, front, k) + [w]
  {
    var (a, b) := (RingContents(arr[(front + k) % MAX_QUEUE_SIZE := w], front, k + 1),
                   RingContents(arr, front, k) + [w]);
    forall i: nat | i < k + 1 ensures a[i] == b[i] {
      if i < k { SlotsDiffer(front, i, k); }
    }
  }

  /** A pop at the front takes the first of the contents. */
  lemma RingPop(arr: seq<Work>, front: nat, k: nat)
    requires |arr| == MAX_QUEUE_SIZE && 0 < k
    ensures RingContents(arr, (front + 1) % MAX_QUEUE_SIZE, k - 1) == RingContents(arr, front, k)[1..]
  {
    var (a, b) := (RingContents(arr, (front + 1) % MAX_QUEUE_SIZE, k - 1), RingContents(arr, front, k)[1..]);
    forall i: nat | i < k - 1 ensures a[i] == b[i] {
      NextSlot(front, i);
    }
  }

  lemma NextSlot(front: nat, i: nat)
    ensures ((front + 1) % MAX_QUEUE_SIZE + i) % MAX_QUEUE_SIZE == (front + 1 + i) % MAX_QUEUE_SIZE
  {
  }

  lemma RearMoves(front: nat, k: nat)
    ensures ((front + k) % MAX_QUEUE_SIZE + 1) % MAX_QUEUE_SIZE == (front + k + 1) % MAX_QUEUE_SIZE
  {
  }

  /** A push on a full ring, which tpool_request makes without a test: the rear is then the front, so the work takes the
      place of the oldest one, is handed out next, and the oldest one is lost. */
  lemma FullRingLosesTheOldest(arr: seq<Work>, front: nat, w: Work)
    requires |arr| == MAX_QUEUE_SIZE && front < MAX_QUEUE_SIZE
    ensures var rear := (front + MAX_QUEUE_SIZE) % MAX_QUEUE_SIZE;
      && rear == front
      && RingContents(arr[rear := w], front, MAX_QUEUE_SIZE) == [w] + RingContents(arr, front, MAX_QUEUE_SIZE)[1..]
  {
    var (a, b) := (RingContents(arr[front := w], front, MAX_QUEUE_SIZE),
                   [w] + RingContents(arr, front, MAX_QUEUE_SIZE)[1..]);
    forall i: nat | i < MAX_QUEUE_SIZE ensures a[i] == b[i] {
      if i > 0 { SlotsDiffer(front, 0, i); }
    }
  }

  class TPool {
    const n: nat
    const workQueue: array<Work>
    var front: nat
    var rear: nat
    var queueSize: nat
    var totalWorks: int
    var completed: int
    var terminate: bool

    ghost predicate Valid()
      reads this, workQueue
    {
      && workQueue.Length == MAX_QUEUE_SIZE
      && front < MAX_QUEUE_SIZE && queueSize <= MAX_QUEUE_SIZE
      && rear == (front + queueSize) % MAX_QUEUE_SIZE
    }

    ghost function Model(): Pool
      requires Valid()
      reads this, workQueue
    {
      Pool(RingContents(workQueue[..], front, queueSize), totalWorks, completed, terminate)
    }

    /** tpool_init, without the threads. */
    constructor (n: nat)
      ensures Valid() && Model() == Pool([], 0, 0, false) && this.n == n && fresh(workQueue)
    {
      this.n := n;
      workQueue := new Work[MAX_QUEUE_SIZE](_ => Work(0, 0, 0));
      front, rear, queueSize, totalWorks, completed, terminate := 0, 0, 0, 0, 0, false;
    }

    /** The section of tpool_request that announces the works. */
    method Announce(numWorks: int)
      requires Valid()
      modifies this`totalWorks
      ensures Valid() && Model() == old(Model()).(totalWorks := old(totalWorks) + numWorks)
    {
      totalWorks := totalWorks + numWorks;
    }

    /** The section of tpool_request that queues one work. */
    method PushWork(w: Work)
      requires Valid() && queueSize < MAX_QUEUE_SIZE
      modifies this`rear, this`queueSize, workQueue
      ensures Valid() && Model() == Push(old(Model()), w)
    {
      hide RingContents;
      RingPush(workQueue[..], front, queueSize, w);
      RearMoves(front, queueSize);
      workQueue[rear] := w;
      rear := (rear + 1) % MAX_QUEUE_SIZE;
      queueSize := queueSize + 1;
    }

    /** Taking the oldest work out of the ring. */
    method PopWork()
      requires Valid() && queueSize > 0
      modifies this`front, this`queueSize
      ensures Valid() && Model() == old(Model()).(queue := old(Model().queue)[1..])
    {
      hide RingContents;
      RingPop(workQueue[..], front, queueSize);
      NextSlot(front, queueSize - 1);
      front := (front + 1) % MAX_QUEUE_SIZE;
      queueSize := queueSize - 1;
    }

    /** The first section of worker_thread, once: the test of the queue, and taking the oldest work. */
    method EnterSection() returns (found: Found)
      requires Valid()
      modifies this`front, this`queueSize
      ensures Valid() && (Model(), found) == Enter(old(Model()))
      ensures found == if old(queueSize) > 0 then Got(workQueue[old(front)]) else if terminate then Quit else Wait
    {
      if queueSize == 0 && !terminate {
        found := Wait;
      } else if terminate && queueSize == 0 {
        found := Quit;
      } else {
        found := Got(workQueue[front]);
        PopWork();
      }
    }

    /** The second section of worker_thread; `signals` says whether it signals. */
    method FinishSection() returns (signals: bool)
      requires Valid()
      modifies this`completed
      ensures Valid() && (Model(), signals) == Finish(old(Model()))
      ensures signals <==> completed >= totalWorks
    {
      completed := completed + 1;
      signals := completed >= totalWorks;
      assert Model().queue == old(Model().queue);
    }

    /** The test of tpool_synchronize. */
    method MustWait() returns (waits: bool)
      requires Valid()
      ensures waits <==> Model().queue != []
    {
      waits := queueSize > 0;
    }

    /** The section of tpool_destroy. */
    method Terminate()
      requires Valid()
      modifies this`terminate
      ensures Valid() && Model() == old(Model()).(terminate := true)
    {
      terminate := true;
    }

    /** tpool_request with no worker in between: the works, cut in order, are queued behind what is there. */
    method QueueRequest(req: nat, numWorks: nat)
      requires Valid() && numWorks > 0 && queueSize + numWorks <= MAX_QUEUE_SIZE
      modifies this`totalWorks, this`rear, this`queueSize, workQueue
      ensures Valid()
      ensures Model() == old(Model()).(totalWorks := old(totalWorks) + numWorks,
                                       queue := old(Model().queue) + Works(req, n * n, numWorks, numWorks))
    {
      var total := n * n;
      var workSize, remainder := total / numWorks, total % numWorks;
      var start := 0;
      Announce(numWorks);
      var i := 0;
      while i < numWorks
        invariant i <= numWorks && Valid() && queueSize == old(queueSize) + i
        invariant start == SplitStart(total, numWorks, i)
        invariant Model() == old(Model()).(totalWorks := old(totalWorks) + numWorks,
                                           queue := old(Model().queue) + Works(req, total, numWorks, i))
      {
        var end := start + workSize + if i < remainder then 1 else 0;
        PushWork(Work(req, start, end));
        assert old(Model().queue) + Works(req, total, numWorks, i + 1)
            == old(Model().queue) + Works(req, total, numWorks, i) + [Work(req, start, end)];
        start := end;
        i := i + 1;
      }
    }
  }

  /** The first i works of a request. */
  function Works(req: nat, total: nat, numWorks: nat, i: nat): seq<Work>
    requires numWorks > 0
  {
    if i == 0 then []
    else
      var w := Work(req, SplitStart(total, numWorks, i - 1), SplitStart(total, numWorks, i));
      Works(req, total, numWorks, i - 1) + [w]
  }

  // ---- matrices in place ----

  ghost function Entries(m: array2<int>): Matrix
    reads m
  {
    seq(m.Length0, i requires 0 <= i < m.Length0 reads m =>
      seq(m.Length1, j requires 0 <= j < m.Length1 reads m => m[i, j]))
  }

  /** The copying loops of tpool_request. */
  method TransposeMatrix(b: array2<int>, n: nat) returns (t: array2<int>)
    requires b.Length0 == n && b.Length1 == n
    ensures fresh(t) && t.Length0 == n && t.Length1 == n
    ensures Entries(t) == Transpose(Entries(b), n)
  {
    t := new int[n, n];
    var i := 0;
    while i < n
      invariant i <= n
      invariant forall p, q :: 0 <= p < i && 0 <= q < n ==> t[p, q] == b[q, p]
    {
      var j := 0;
      while j < n
        invariant j <= n
        invariant forall p, q :: 0 <= p < i && 0 <= q < n ==> t[p, q] == b[q, p]
        invariant forall q :: 0 <= q < j ==> t[i, q] == b[q, i]
      {
        t[i, j] := b[j, i];
        j := j + 1;
      }
      i := i + 1;
    }
    var (e, f) := (Entries(t), Transpose(Entries(b), n));
    assert forall p :: 0 <= p < n ==> e[p] == f[p];
  }

  /** calculation of main.c, on row `row` of a and row `col` of the transposed b. */
  method Calculate(n: nat, a: array2<int>, row: nat, b: array2<int>, col: nat) returns (res: int)
    requires n == a.Length1 == b.Length1 && row < a.Length0 && col < b.Length0
    ensures res == Calculation(n, Entries(a)[row], Entries(b)[col])
  {
    res := 0;
    var i := 0;
    while i < n
      invariant i <= n && res == Calculation(i, Entries(a)[row], Entries(b)[col])
    {
      res := res + a[row, i] * b[col, i];
      i := i + 1;
    }
  }

  /** The number of an entry in the order in which the works count the cells. */
  function CellNumber(n: nat, row: nat, col: nat): nat {
    row * n + col
  }

  /** The result matrix with the cells lo..hi-1 computed and the others as they were. */
  ghost predicate ComputedBetween(m: Matrix, was: Matrix, a: Matrix, b: Matrix, n: nat, lo: int, hi: int)
    requires IsSquare(m, n) && IsSquare(was, n) && IsSquare(a, n) && IsSquare(b, n)
  {
    forall row: nat, col: nat :: row < n && col < n ==>
      m[row][col] == if lo <= CellNumber(n, row, col) < hi then Calculation(n, a[row], b[col]) else was[row][col]
  }

  /** The loop of worker_thread over the cells of its work. */
  method ComputeWork(w: Work, n: nat, a: array2<int>, b: array2<int>, c: array2<int>)
    requires n > 0 && 0 <= w.start <= w.end <= n * n && c != a && c != b
    requires a.Length0 == a.Length1 == b.Length0 == b.Length1 == c.Length0 == c.Length1 == n
    modifies c
    ensures ComputedBetween(Entries(c), old(Entries(c)), Entries(a), Entries(b), n, w.start, w.end)
  {
    var i := w.start;
    while i < w.end
      invariant w.start <= i <= w.end
      invariant ComputedBetween(Entries(c), old(Entries(c)), Entries(a), Entries(b), n, w.start, i)
    {
      ComputeEntry(i, n, a, b, c);
      i := i + 1;
    }
  }

  method ComputeEntry(i: nat, n: nat, a: array2<int>, b: array2<int>, c: array2<int>)
    requires 0 <= i < n * n && c != a && c != b
    requires a.Length0 == a.Length1 == b.Length0 == b.Length1 == c.Length0 == c.Length1 == n
    modifies c
    ensures ComputedBetween(Entries(c), old(Entries(c)), Entries(a), Entries(b), n, i, i + 1)
  {
    CellInRange(i, n);
    var row, col := i / n, i % n;
    var v := Calculate(n, a, row, b, col);
    forall r: nat, k: nat | r < n && k < n ensures CellNumber(n, r, k) == i <==> r == row && k == col {
      CellsAreEntries(n, i, r, k);
    }
    c[row, col] := v;
  }
}
