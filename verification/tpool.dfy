/** The thread pool of tpool.c as a transition system.  A step is one section under the mutex, or one cell of the
    result outside it.  pthread_cond_wait gives up the mutex and blocks at once, and may wake up spuriously;
    pthread_cond_signal wakes one blocked thread of its choice, if any is blocked. */
module ThreadPool {
  const MAX_QUEUE_SIZE := 100

  type Matrix = seq<seq<int>>

  /** A call of tpool_request; the result matrix is the entry of `State.c` with the same index. */
  datatype Request = Request(a: Matrix, b: Matrix, numWorks: int)

  datatype Work = Work(req: nat, start: int, end: int)

  /** The fields that the mutex protects; the ring of queued works is the sequence that it holds (see `TPool`). */
  datatype Pool = Pool(queue: seq<Work>, totalWorks: int, completed: int, terminate: bool)

  /** Where a worker is: about to lock and test the queue, blocked in pthread_cond_wait, in the loop over its work
      with index i, or returned. */
  datatype Worker = AtLock | Blocked | Computing(work: Work, i: int) | Exited

  /** Where the thread of main.c is: about to announce request r, about to push work i of request r, about to test the
      queue in tpool_synchronize, blocked there, returned from it, waiting to join worker k, or returned from
      tpool_destroy. */
  datatype Front =
    | Announce(r: nat)
    | Pushing(r: nat, i: int, start: int)
    | SyncTest
    | SyncBlocked
    | Synchronized
    | Joining(k: nat)
    | Done

  datatype State = State(n: nat, reqs: seq<Request>, c: seq<Matrix>, pool: Pool, workers: seq<Worker>, front: Front)

  /** Whom a wake-up reaches. */
  datatype Waker = NoOne | ToWorker(k: nat) | ToFront

  datatype Action = FrontStep(wake: Waker) | WorkerStep(k: nat, wake: Waker) | Spurious(who: Waker)

  // ---- matrices ----

  predicate IsSquare(m: Matrix, n: nat) {
    |m| == n && forall i :: 0 <= i < n ==> |m[i]| == n
  }

  /** Entry (row, col) of the product of a and b, as far as its first k terms. */
  function Product(a: Matrix, b: Matrix, row: nat, col: nat, k: nat): int
    requires row < |a| && k <= |a[row]| && k <= |b| && forall i :: 0 <= i < k ==> col < |b[i]|
  {
    if k == 0 then 0 else Product(a, b, row, col, k - 1) + a[row][k - 1] * b[k - 1][col]
  }

  /** calculation of main.c. */
  function Calculation(n: nat, x: seq<int>, y: seq<int>): int
    requires n <= |x| && n <= |y|
  {
    if n == 0 then 0 else Calculation(n - 1, x, y) + x[n - 1] * y[n - 1]
  }

  /** The transposed copy that tpool_request hands to the workers. */
  function Transpose(b: Matrix, n: nat): (t: Matrix)
    requires IsSquare(b, n)
    ensures IsSquare(t, n)
    ensures forall i, j :: 0 <= i < n && 0 <= j < n ==> t[i][j] == b[j][i]
  {
    seq(n, i requires 0 <= i < n => seq(n, j requires 0 <= j < n => b[j][i]))
  }

  // ---- the sections under the mutex ----

  /** What a worker finds when it holds the mutex: nothing yet, nothing any more, or the oldest work. */
  datatype Found = Wait | Quit | Got(work: Work)

  function Enter(p: Pool): (Pool, Found) {
    if p.queue == [] then (p, if p.terminate then Quit else Wait)
    else (p.(queue := p.queue[1..]), Got(p.queue[0]))
  }

  /** The second section of a worker; the flag says whether it signals. */
  function Finish(p: Pool): (Pool, bool) {
    (p.(completed := p.completed + 1), p.completed + 1 >= p.totalWorks)
  }

  function Push(p: Pool, w: Work): Pool {
    p.(queue := p.queue + [w])
  }

  /** How many cells work i of a request gets: the first total % numWorks works get one more. */
  function Share(total: nat, numWorks: int, i: int): int
    requires numWorks > 0
  {
    total / numWorks + if i < total % numWorks then 1 else 0
  }

  // ---- steps ----

  predicate ValidState(s: State) {
    && s.n >= 1
    && |s.c| == |s.reqs|
    && (forall r :: 0 <= r < |s.reqs| ==>
          && IsSquare(s.reqs[r].a, s.n) && IsSquare(s.reqs[r].b, s.n) && IsSquare(s.c[r], s.n)
          && s.reqs[r].numWorks > 0)
    && (forall j :: 0 <= j < |s.pool.queue| ==> ValidWork(s.n, |s.reqs|, s.pool.queue[j]))
    && (forall k :: 0 <= k < |s.workers| ==> ValidWorker(s.n, |s.reqs|, s.workers[k]))
    && ValidFront(s.reqs, |s.workers|, s.front)
  }

  predicate ValidWork(n: nat, reqs: nat, w: Work) {
    w.req < reqs && 0 <= w.start <= w.end <= n * n
  }

  predicate ValidWorker(n: nat, reqs: nat, w: Worker) {
    w.Computing? ==> ValidWork(n, reqs, w.work) && w.work.start <= w.i <= w.work.end
  }

  predicate ValidFront(reqs: seq<Request>, workers: nat, f: Front) {
    match f
    case Announce(r) => r < |reqs|
    case Pushing(r, i, start) => r < |reqs| && 0 <= i < reqs[r].numWorks && 0 <= start
    case Joining(k) => k <= workers
    case _ => true
  }

  predicate IsBlocked(s: State, w: Waker) {
    match w
    case NoOne => false
    case ToWorker(k) => k < |s.workers| && s.workers[k] == Blocked
    case ToFront => s.front == SyncBlocked
  }

  predicate NobodyBlocked(s: State) {
    s.front != SyncBlocked && forall k :: 0 <= k < |s.workers| ==> s.workers[k] != Blocked
  }

  /** pthread_cond_signal: it wakes a blocked thread, and no one only if no thread is blocked. */
  predicate MayWake(s: State, w: Waker) {
    if w == NoOne then NobodyBlocked(s) else IsBlocked(s, w)
  }

  function Wake(s: State, w: Waker): State {
    match w
    case NoOne => s
    case ToWorker(k) => if k < |s.workers| then s.(workers := s.workers[k := AtLock]) else s
    case ToFront => s.(front := SyncTest)
  }

  /** What the thread of main.c does after the requests before r. */
  function NextFront(s: State, r: nat): Front {
    if r < |s.reqs| then Announce(r) else SyncTest
  }

  function Released(w: Worker): Worker {
    if w == Blocked then AtLock else w
  }

  /** The flags say whether the step, taken by a thread that holds the mutex, signals. */
  predicate WorkerSignals(s: State, k: nat)
    requires k < |s.workers|
  {
    var w := s.workers[k];
    w.Computing? && w.i >= w.work.end && Finish(s.pool).1
  }

  predicate Enabled(s: State, a: Action) {
    match a
    case FrontStep(w) =>
      && s.front != SyncBlocked && s.front != Done
      && (s.front.Joining? && s.front.k < |s.workers| ==> s.workers[s.front.k] == Exited)
      && (if s.front.Pushing? then MayWake(s, w) else w == NoOne)
    case WorkerStep(k, w) =>
      && k < |s.workers| && s.workers[k] != Blocked && s.workers[k] != Exited
      && (if WorkerSignals(s, k) then MayWake(s, w) else w == NoOne)
    case Spurious(w) => IsBlocked(s, w)
  }

  function SetCell(m: Matrix, row: nat, col: nat, v: int): Matrix
    requires row < |m| && col < |m[row]|
  {
    m[row := m[row][col := v]]
  }

  /** One turn of the loop of worker_thread over the cells of its work. */
  function ComputeCell(s: State, k: nat): State
    requires ValidState(s) && k < |s.workers| && s.workers[k].Computing? && s.workers[k].i < s.workers[k].work.end
  {
    var (w, i) := (s.workers[k].work, s.workers[k].i);
    CellInRange(i, s.n);
    var (row, col) := (i / s.n, i % s.n);
    var v := Calculation(s.n, s.reqs[w.req].a[row], Transpose(s.reqs[w.req].b, s.n)[col]);
    s.(c := s.c[w.req := SetCell(s.c[w.req], row, col, v)], workers := s.workers[k := Computing(w, i + 1)])
  }

  lemma CellInRange(i: int, n: nat)
    requires 0 <= i < n * n
    ensures n > 0 && 0 <= i / n < n && 0 <= i % n < n
  {
    var q := i / n;
    assert i == q * n + i % n;
    ProductGrows(q, n, n);
  }

  lemma ProductGrows(q: int, m: int, n: nat)
    ensures q >= m ==> q * n >= m * n
  {
    if q >= m {
      assert q * n - m * n == (q - m) * n;
    }
  }

  function ApplyWorker(s: State, k: nat, wake: Waker): State
    requires ValidState(s) && k < |s.workers|
  {
    match s.workers[k]
    case AtLock =>
      var (p, found) := Enter(s.pool);
      var w := match found
        case Wait => Blocked
        case Quit => Exited
        case Got(work) => Computing(work, work.start);
      s.(pool := p, workers := s.workers[k := w])
    case Computing(work, i) =>
      if i < work.end then ComputeCell(s, k)
      else Wake(s.(pool := Finish(s.pool).0, workers := s.workers[k := AtLock]), wake)
    case _ => s
  }

  function ApplyFront(s: State, wake: Waker): State
    requires ValidState(s)
  {
    match s.front
    case Announce(r) =>
      s.(pool := s.pool.(totalWorks := s.pool.totalWorks + s.reqs[r].numWorks), front := Pushing(r, 0, 0))
    case Pushing(r, i, start) =>
      var end := start + Share(s.n * s.n, s.reqs[r].numWorks, i);
      var next := if i + 1 < s.reqs[r].numWorks then Pushing(r, i + 1, end) else NextFront(s, r + 1);
      Wake(s.(pool := Push(s.pool, Work(r, start, end)), front := next), wake)
    case SyncTest => s.(front := if s.pool.queue != [] then SyncBlocked else Synchronized)
    case Synchronized =>
      s.(pool := s.pool.(terminate := true), front := Joining(0),
         workers := seq(|s.workers|, k requires 0 <= k < |s.workers| => Released(s.workers[k])))
    case Joining(k) => s.(front := if k < |s.workers| then Joining(k + 1) else Done)
    case _ => s
  }

  function Apply(s: State, a: Action): State
    requires ValidState(s)
  {
    match a
    case FrontStep(w) => ApplyFront(s, w)
    case WorkerStep(k, w) => if k < |s.workers| then ApplyWorker(s, k, w) else s
    case Spurious(w) => Wake(s, w)
  }

  // ---- whole runs ----

  /** main.c: k workers, the side of the matrices, and the requests in order. */
  datatype Job = Job(k: nat, n: nat, reqs: seq<Request>)

  predicate ValidJob(j: Job) {
    && j.k >= 1 && j.n >= 1
    && forall r :: 0 <= r < |j.reqs| ==>
         IsSquare(j.reqs[r].a, j.n) && IsSquare(j.reqs[r].b, j.n) && j.reqs[r].numWorks > 0
  }

  function Zeros(n: nat): Matrix {
    seq(n, _ => seq(n, _ => 0))
  }

  function Start(j: Job): State
    requires ValidJob(j)
  {
    State(j.n, j.reqs, seq(|j.reqs|, _ => Zeros(j.n)), Pool([], 0, 0, false), seq(j.k, _ => AtLock),
          if j.reqs != [] then Announce(0) else SyncTest)
  }
}
