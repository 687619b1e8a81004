/** How runs of the pool end: they are bounded, they stop only when the program is done or when tpool_synchronize hangs,
    and it can hang exactly when there are at least two workers. */
module PoolProgress {
  import opened ThreadPool
  import opened PoolSplit
  import opened PoolInvariant

  // ---- how much is left ----

  /** The steps that requests r.. still take, from the announcement on: a push, a take and an end for each work, and
      one step for each cell. */
  function RequestsLeft(n: nat, reqs: seq<Request>, r: nat): nat
    requires r <= |reqs| && forall q :: 0 <= q < |reqs| ==> reqs[q].numWorks > 0
    decreases |reqs| - r
  {
    if r == |reqs| then 0 else 1 + 3 * reqs[r].numWorks + n * n + RequestsLeft(n, reqs, r + 1)
  }

  function AtLeastZero(x: int): nat {
    if x < 0 then 0 else x
  }

  function FrontLeft(s: State): nat
    requires ValidState(s)
  {
    var k := |s.workers|;
    match s.front
    case Announce(r) => RequestsLeft(s.n, s.reqs, r) + k + 4
    case Pushing(r, i, start) =>
      3 * (s.reqs[r].numWorks - i) + AtLeastZero(s.n * s.n - start) + RequestsLeft(s.n, s.reqs, r + 1) + k + 4
    case SyncTest => k + 4
    case SyncBlocked => k + 4
    case Synchronized => k + 3
    case Joining(j) => k - j + 1
    case Done => 0
  }

  function WorkLeft(w: Work): nat {
    2 + AtLeastZero(w.end - w.start)
  }

  function QueueLeft(q: seq<Work>): nat {
    if q == [] then 0 else WorkLeft(q[0]) + QueueLeft(q[1..])
  }

  function WorkerLeft(w: Worker): nat {
    if w.Computing? then 1 + AtLeastZero(w.work.end - w.i) else 0
  }

  function WorkersLeft(ws: seq<Worker>): nat {
    if ws == [] then 0 else WorkersLeft(ws[..|ws| - 1]) + WorkerLeft(ws[|ws| - 1])
  }

  /** The threads that are about to test the queue. */
  function Testing(ws: seq<Worker>): nat {
    if ws == [] then 0 else Testing(ws[..|ws| - 1]) + if ws[|ws| - 1] == AtLock then 1 else 0
  }

  function FrontTests(f: Front): nat {
    if f == SyncTest then 1 else 0
  }

  function WorkTotal(s: State): nat
    requires ValidState(s)
  {
    FrontLeft(s) + QueueLeft(s.pool.queue) + WorkersLeft(s.workers)
  }

  function TestTotal(s: State): nat {
    Testing(s.workers) + FrontTests(s.front)
  }

  /** Work counts for more than all the tests that it can cause. */
  function Measure(s: State): nat
    requires ValidState(s)
  {
    WorkTotal(s) * (|s.workers| + 2) + TestTotal(s)
  }

  function TestOne(w: Worker): nat {
    if w == AtLock then 1 else 0
  }

  lemma {:induction false} WorkersUpdate(ws: seq<Worker>, k: nat, w: Worker)
    requires k < |ws|
    ensures WorkersLeft(ws[k := w]) == WorkersLeft(ws) - WorkerLeft(ws[k]) + WorkerLeft(w)
    ensures Testing(ws[k := w]) == Testing(ws) - TestOne(ws[k]) + TestOne(w)
  {
    var last := |ws| - 1;
    if k == last {
      assert ws[k := w][..last] == ws[..last];
    } else {
      assert ws[k := w][..last] == ws[..last][k := w];
      WorkersUpdate(ws[..last], k, w);
    }
  }

  lemma {:induction false} QueueAppend(q: seq<Work>, w: Work)
    ensures QueueLeft(q + [w]) == QueueLeft(q) + WorkLeft(w)
  {
    if q == [] {
    } else {
      assert (q + [w])[1..] == q[1..] + [w];
      QueueAppend(q[1..], w);
    }
  }

  lemma {:induction false} ReleasedLeft(ws: seq<Worker>, vs: seq<Worker>)
    requires |ws| == |vs| && forall k :: 0 <= k < |ws| ==> vs[k] == Released(ws[k])
    ensures WorkersLeft(vs) == WorkersLeft(ws) && Testing(vs) <= |vs|
  {
    if ws == [] {
    } else {
      ReleasedLeft(ws[..|ws| - 1], vs[..|vs| - 1]);
    }
  }

  /** One unit of work less outweighs up to |workers| + 1 more tests. */
  lemma MeasureFalls(s: State, t: State)
    requires ValidState(s) && ValidState(t) && |s.workers| == |t.workers|
    requires (WorkTotal(t) < WorkTotal(s) && TestTotal(t) <= TestTotal(s) + |s.workers| + 1)
      || (WorkTotal(t) == WorkTotal(s) && TestTotal(t) < TestTotal(s))
    ensures Measure(t) < Measure(s)
  {
    hide WorkTotal, TestTotal, ValidState;
    if WorkTotal(t) < WorkTotal(s) {
      ProductGrows(WorkTotal(s), WorkTotal(t) + 1, |s.workers| + 2);
      assert (WorkTotal(t) + 1) * (|s.workers| + 2) == WorkTotal(t) * (|s.workers| + 2) + |s.workers| + 2;
    }
  }

  lemma WakeTotals(s: State, w: Waker)
    requires ValidState(s) && (w == NoOne || IsBlocked(s, w))
    ensures var t := Wake(s, w);
      && ValidState(t) && WorkTotal(t) == WorkTotal(s)
      && TestTotal(t) == TestTotal(s) + if w == NoOne then 0 else 1
  {
    hide IsSquare, RequestsLeft;
    if w.ToWorker? { WorkersUpdate(s.workers, w.k, AtLock); }
  }

  lemma PushTotals(s: State, wake: Waker)
    requires PoolInv(s) && s.front.Pushing? && MayWake(s, wake)
    ensures var t := ApplyFront(s, wake);
      && ValidState(t) && |t.workers| == |s.workers|
      && WorkTotal(t) < WorkTotal(s) && TestTotal(t) <= TestTotal(s) + 2
  {
    hide IsSquare, SplitStart, Share, Conserved, Wakeups, CellsAccounted, RequestsLeft;
    PushValid(s, wake);
    PushedWork(s);
    var f := s.front;
    var end := f.start + Share(s.n * s.n, s.reqs[f.r].numWorks, f.i);
    var w := Work(f.r, f.start, end);
    QueueAppend(s.pool.queue, w);
    LastRequest(s, f.r);
    if wake.ToWorker? { WorkersUpdate(s.workers, wake.k, AtLock); }
  }

  lemma LastRequest(s: State, r: nat)
    requires ValidState(s) && r < |s.reqs|
    ensures r + 1 == |s.reqs| ==> RequestsLeft(s.n, s.reqs, r + 1) == 0
    ensures s.reqs[r].numWorks > 0
  {
  }

  lemma OtherFrontTotals(s: State)
    requires PoolInv(s) && Enabled(s, FrontStep(NoOne)) && !s.front.Pushing?
    ensures var t := ApplyFront(s, NoOne);
      && ValidState(t) && |t.workers| == |s.workers| && Measure(t) < Measure(s)
  {
    hide IsSquare, CutFits, Conserved, CellsAccounted;
    ApplyKeeps(s, FrontStep(NoOne));
    var t := ApplyFront(s, NoOne);
    ReleasedOrSame(s);
    MeasureFalls(s, t);
  }

  lemma ReleasedOrSame(s: State)
    requires ValidState(s) && !s.front.Pushing?
    ensures var t := ApplyFront(s, NoOne);
      && WorkersLeft(t.workers) == WorkersLeft(s.workers)
      && (t.workers == s.workers || Testing(t.workers) <= |s.workers|)
  {
    var t := ApplyFront(s, NoOne);
    if s.front.Synchronized? { ReleasedLeft(s.workers, t.workers); }
  }

  lemma WorkerTotals(s: State, k: nat, wake: Waker)
    requires PoolInv(s) && Enabled(s, WorkerStep(k, wake))
    ensures var t := ApplyWorker(s, k, wake);
      && ValidState(t) && |t.workers| == |s.workers| && Measure(t) < Measure(s)
  {
    ApplyKeeps(s, WorkerStep(k, wake));
    var t := ApplyWorker(s, k, wake);
    match s.workers[k] {
      case AtLock => EnterTotals(s, k);
      case Computing(work, i) =>
        if i < work.end { CellTotals(s, k); } else { FinishTotals(s, k, wake); }
      case _ =>
    }
  }

  lemma EnterTotals(s: State, k: nat)
    requires ValidState(s) && k < |s.workers| && s.workers[k] == AtLock && ValidState(ApplyWorker(s, k, NoOne))
    ensures Measure(ApplyWorker(s, k, NoOne)) < Measure(s)
  {
    hide ValidState, RequestsLeft;
    var t := ApplyWorker(s, k, NoOne);
    WorkersUpdate(s.workers, k, t.workers[k]);
    MeasureFalls(s, t);
  }

  lemma CellTotals(s: State, k: nat)
    requires ValidState(s) && k < |s.workers| && s.workers[k].Computing? && s.workers[k].i < s.workers[k].work.end
    requires ValidState(ComputeCell(s, k))
    ensures Measure(ComputeCell(s, k)) < Measure(s)
  {
    hide ValidState, RequestsLeft, SetCell, Calculation, Transpose;
    var t := ComputeCell(s, k);
    WorkersUpdate(s.workers, k, t.workers[k]);
    MeasureFalls(s, t);
  }

  lemma FinishTotals(s: State, k: nat, wake: Waker)
    requires ValidState(s) && k < |s.workers| && s.workers[k].Computing? && s.workers[k].i >= s.workers[k].work.end
    requires wake == NoOne || IsBlocked(s, wake)
    requires ValidState(Ended(s, k)) && ValidState(ApplyWorker(s, k, wake))
    ensures Measure(ApplyWorker(s, k, wake)) < Measure(s)
  {
    hide ValidState, RequestsLeft;
    WorkersUpdate(s.workers, k, AtLock);
    WakeTotals(Ended(s, k), wake);
    MeasureFalls(s, ApplyWorker(s, k, wake));
  }

  // ---- runs are bounded ----

  lemma StepFalls(s: State, a: Action)
    requires PoolInv(s) && Enabled(s, a)
    ensures var t := Apply(s, a);
      && ValidState(s) && ValidState(t)
      && (if a.Spurious? then Measure(t) == Measure(s) + 1 else Measure(t) < Measure(s))
  {
    hide Measure, WorkTotal, ApplyWorker, ApplyFront, CutFits, Conserved, Wakeups, CellsAccounted, IsSquare;
    ApplyKeeps(s, a);
    match a {
      case FrontStep(w) =>
        if s.front.Pushing? {
          PushTotals(s, w);
          MeasureFalls(s, ApplyFront(s, w));
        } else {
          OtherFrontTotals(s);
        }
      case WorkerStep(k, w) => WorkerTotals(s, k, w);
      case Spurious(w) =>
        WakeTotals(s, w);
        MeasureOfWake(s, w);
    }
  }

  lemma MeasureOfWake(s: State, w: Waker)
    requires ValidState(s) && IsBlocked(s, w) && ValidState(Wake(s, w)) && WorkTotal(Wake(s, w)) == WorkTotal(s)
    requires TestTotal(Wake(s, w)) == TestTotal(s) + 1
    ensures Measure(Wake(s, w)) == Measure(s) + 1
  {
    hide ValidState, WorkTotal;
  }

  function CountSpurious(actions: seq<Action>): nat {
    if actions == [] then 0 else (if actions[0].Spurious? then 1 else 0) + CountSpurious(actions[1..])
  }

  lemma {:induction false} RunMeasure(s: State, actions: seq<Action>)
    requires PoolInv(s) && CanRun(s, actions)
    ensures |actions| <= Measure(s) + 2 * CountSpurious(actions)
    decreases |actions|
  {
    hide PoolInv, Apply, Measure, Enabled;
    if actions == [] {
    } else {
      StepFalls(s, actions[0]);
      ApplyKeeps(s, actions[0]);
      RunMeasure(Apply(s, actions[0]), actions[1..]);
    }
  }

  /** Every run is finite: apart from spurious wake-ups, and one test of the queue for each of them, it takes no more
      steps than a bound that the job fixes. */
  lemma RunsAreBounded(j: Job, actions: seq<Action>)
    requires ValidJob(j) && CanRun(Start(j), actions)
    ensures ValidState(Start(j)) && |actions| <= Measure(Start(j)) + 2 * CountSpurious(actions)
  {
    hide Measure;
    StartKeeps(j);
    RunMeasure(Start(j), actions);
  }

  // ---- where runs stop ----

  ghost predicate Stuck(s: State) {
    forall a: Action :: Enabled(s, a) ==> a.Spurious?
  }

  /** tpool_synchronize waits for a signal that nobody is left to send: all works are completed. */
  ghost predicate Hangs(s: State) {
    && s.front == SyncBlocked && s.pool.queue == [] && s.pool.completed == s.pool.totalWorks
    && forall k :: 0 <= k < |s.workers| ==> s.workers[k] == Blocked
  }

  lemma AbleSteps(s: State, k: nat)
    requires k < |s.workers| && Able(s.workers[k])
    ensures !Stuck(s)
  {
    var w := if WorkerSignals(s, k) then SomeWaker(s) else NoOne;
    assert Enabled(s, WorkerStep(k, w)) by { SomeWakerMayBe(s); }
  }

  ghost function SomeWaker(s: State): Waker {
    if s.front == SyncBlocked then ToFront
    else if k: nat :| k < |s.workers| && s.workers[k] == Blocked then ToWorker(k)
    else NoOne
  }

  lemma SomeWakerMayBe(s: State)
    ensures MayWake(s, SomeWaker(s))
  {
  }

  /** A run can stop only when the program is done, or when the frontend hangs in tpool_synchronize. */
  lemma StuckIsDoneOrHangs(s: State)
    requires PoolInv(s) && Stuck(s)
    ensures s.front == Done || Hangs(s)
  {
    hide IsSquare, SplitStart, CellsAccounted, MayWake, WorkerSignals;
    forall k: nat | k < |s.workers| ensures s.workers[k] == Blocked || s.workers[k] == Exited {
      if Able(s.workers[k]) { AbleSteps(s, k); }
    }
    SomeWakerMayBe(s);
    var w := if s.front.Pushing? then SomeWaker(s) else NoOne;
    assert Enabled(s, FrontStep(w)) || s.front == SyncBlocked || s.front == Done;
    NobodyBusy(s.workers);
  }

  // ---- one worker never hangs ----

  /** With one worker, the frontend waits only while the worker has work to do. */
  ghost predicate SoleWorkerBusy(s: State) {
    |s.workers| == 1 && (s.front == SyncBlocked ==>
      s.workers[0].Computing? || (s.workers[0] == AtLock && s.pool.queue != []))
  }

  lemma SoleStep(s: State, a: Action)
    requires PoolInv(s) && SoleWorkerBusy(s) && Enabled(s, a)
    ensures SoleWorkerBusy(Apply(s, a))
  {
    hide IsSquare, SplitStart, Share, CellsAccounted, ComputeCell, CutFits;
    assert Busy(s.workers) == BusyOne(s.workers[0]) by {
      assert s.workers[..0] == [];
    }
    if a.WorkerStep? && s.workers[0].Computing? && s.workers[0].i < s.workers[0].work.end {
      CellLeavesFront(s);
    }
  }

  lemma CellLeavesFront(s: State)
    requires ValidState(s) && |s.workers| == 1
    requires s.workers[0].Computing? && s.workers[0].i < s.workers[0].work.end
    ensures var t := ComputeCell(s, 0); t.front == s.front && |t.workers| == 1 && t.workers[0].Computing?
  {
  }

  lemma {:induction false} SoleRun(s: State, actions: seq<Action>)
    requires PoolInv(s) && SoleWorkerBusy(s) && CanRun(s, actions)
    ensures SoleWorkerBusy(After(s, actions))
    decreases |actions|
  {
    hide PoolInv, Apply, Enabled, SoleWorkerBusy;
    if actions == [] {
    } else {
      ApplyKeeps(s, actions[0]);
      SoleStep(s, actions[0]);
      SoleRun(Apply(s, actions[0]), actions[1..]);
    }
  }

  /** With exactly one worker, while the frontend is blocked in tpool_synchronize there are works to complete and the
      worker can step; so every run that cannot go on has ended with the program done. */
  lemma OneWorkerNeverHangs(j: Job, actions: seq<Action>)
    requires ValidJob(j) && j.k == 1 && CanRun(Start(j), actions)
    ensures var t := After(Start(j), actions);
      && |t.workers| == 1
      && (t.front == SyncBlocked ==> t.pool.completed < t.pool.totalWorks && Able(t.workers[0]))
      && (Stuck(t) ==> t.front == Done)
  {
    hide IsSquare, SplitStart, CellsAccounted, CanRun, After, CutFits, Stuck;
    StartKeeps(j);
    SoleRun(Start(j), actions);
    RunKeeps(Start(j), actions);
    var t := After(Start(j), actions);
    assert Busy(t.workers) == BusyOne(t.workers[0]) by {
      assert t.workers[..0] == [];
    }
    if Stuck(t) { StuckIsDoneOrHangs(t); }
  }

  // ---- runs in pieces ----

  lemma {:induction false} RunAppend(s: State, a: seq<Action>, b: seq<Action>)
    requires CanRun(s, a) && CanRun(After(s, a), b)
    ensures CanRun(s, a + b) && After(s, a + b) == After(After(s, a), b)
    decreases |a|
  {
    hide Apply, Enabled, ValidState;
    if a == [] {
      assert a + b == b;
    } else {
      assert (a + b)[1..] == a[1..] + b;
      RunAppend(Apply(s, a[0]), a[1..], b);
    }
  }

  lemma RunOne(s: State, a: Action)
    requires ValidState(s) && Enabled(s, a)
    ensures CanRun(s, [a]) && After(s, [a]) == Apply(s, a)
  {
    assert [a][1..] == [];
    assert After(s, [a]) == After(Apply(s, a), []);
  }

  // ---- the ring is large enough exactly for 100 works ----

  /** Some run of the job has more works queued than the ring has slots. */
  ghost predicate CanOverflow(j: Job)
    requires ValidJob(j)
  {
    exists actions: seq<Action> ::
      CanRun(Start(j), actions) && |After(Start(j), actions).pool.queue| > MAX_QUEUE_SIZE
  }

  lemma {:induction false} TotalMonotone(reqs: seq<Request>, r: nat, q: nat)
    requires r <= q <= |reqs| && forall i :: 0 <= i < |reqs| ==> reqs[i].numWorks > 0
    ensures 0 <= TotalUpTo(reqs, r) <= TotalUpTo(reqs, q)
    decreases q
  {
    if r == 0 == q {
    } else if r == q {
      TotalMonotone(reqs, r - 1, r - 1);
    } else {
      TotalMonotone(reqs, r, q - 1);
    }
  }

  lemma PushedAtMostTotal(s: State)
    requires ValidState(s)
    ensures Pushed(s) <= TotalUpTo(s.reqs, |s.reqs|)
  {
    hide IsSquare;
    match s.front {
      case Announce(r) => TotalMonotone(s.reqs, r, |s.reqs|);
      case Pushing(r, i, _) =>
        assert TotalUpTo(s.reqs, r + 1) == TotalUpTo(s.reqs, r) + s.reqs[r].numWorks;
        TotalMonotone(s.reqs, r + 1, |s.reqs|);
      case _ =>
    }
  }

  /** The frontend alone pushes on until the queue has outgrown the ring. */
  lemma {:induction false} FrontRunsAhead(s: State) returns (actions: seq<Action>)
    requires PoolInv(s) && |s.pool.queue| <= MAX_QUEUE_SIZE && |s.pool.queue| == Pushed(s)
    requires forall k :: 0 <= k < |s.workers| ==> s.workers[k] == AtLock
    requires TotalUpTo(s.reqs, |s.reqs|) > MAX_QUEUE_SIZE
    ensures CanRun(s, actions) && |After(s, actions).pool.queue| > MAX_QUEUE_SIZE
    decreases Measure(s)
  {
    hide IsSquare, SplitStart, Share, CutFits, Conserved, Wakeups, CellsAccounted, Measure;
    var a := FrontStep(NoOne);
    assert s.front.Announce? || s.front.Pushing?;
    RunOne(s, a);
    ApplyKeeps(s, a);
    StepFalls(s, a);
    var t := Apply(s, a);
    PushedNext(s);
    if |t.pool.queue| > MAX_QUEUE_SIZE {
      actions := [a];
    } else {
      var rest := FrontRunsAhead(t);
      RunAppend(s, [a], rest);
      actions := [a] + rest;
    }
  }

  lemma PushedNext(s: State)
    requires ValidState(s) && (s.front.Announce? || s.front.Pushing?) && ValidState(ApplyFront(s, NoOne))
    ensures var t := ApplyFront(s, NoOne);
      && Pushed(t) - |t.pool.queue| == Pushed(s) - |s.pool.queue| && t.workers == s.workers && t.reqs == s.reqs
  {
    hide IsSquare, Share;
  }

  /** The ring of MAX_QUEUE_SIZE slots is large enough in every run exactly when the job has at most that many works. */
  lemma RingSufficesExactly(j: Job)
    requires ValidJob(j)
    ensures CanOverflow(j) <==> TotalUpTo(j.reqs, |j.reqs|) > MAX_QUEUE_SIZE
  {
    hide CanRun, After, PoolInv, IsSquare;
    StartKeeps(j);
    var s := Start(j);
    if TotalUpTo(j.reqs, |j.reqs|) > MAX_QUEUE_SIZE {
      assert Pushed(s) == 0;
      var actions := FrontRunsAhead(s);
    } else {
      forall actions: seq<Action> | CanRun(s, actions) ensures |After(s, actions).pool.queue| <= MAX_QUEUE_SIZE {
        ReachableInv(j, actions);
        RunKeepsJob(s, actions);
        QueueAtMostTotal(After(s, actions));
      }
    }
  }

  /** A job of at most MAX_QUEUE_SIZE works fits the ring in every run, and no other job does. */
  lemma FitsExactly(j: Job)
    requires ValidJob(j)
    ensures (forall actions: seq<Action> :: CanRun(Start(j), actions) ==> Fits(Start(j), actions))
      <==> TotalUpTo(j.reqs, |j.reqs|) <= MAX_QUEUE_SIZE
  {
    hide CanRun, After, PoolInv, Fits, Start;
    StartKeeps(j);
    StartHasReqs(j);
    if TotalUpTo(j.reqs, |j.reqs|) <= MAX_QUEUE_SIZE {
      forall actions: seq<Action> | CanRun(Start(j), actions) ensures Fits(Start(j), actions) {
        SmallJobFits(Start(j), actions);
      }
    } else {
      RingSufficesExactly(j);
      var actions :| CanRun(Start(j), actions) && |After(Start(j), actions).pool.queue| > MAX_QUEUE_SIZE;
      if Fits(Start(j), actions) { FitsAtEnd(Start(j), actions); }
    }
  }

  /** The smallest number of works that can be too many, with one worker and matrices of ones. */
  function TooLarge(): Job {
    var ones := seq(11, _ => seq(11, _ => 1));
    Job(1, 11, [Request(ones, ones, MAX_QUEUE_SIZE + 1)])
  }

  lemma TooLargeOverflows()
    ensures ValidJob(TooLarge()) && CanOverflow(TooLarge())
    ensures exists actions: seq<Action> :: CanRun(Start(TooLarge()), actions) && !Fits(Start(TooLarge()), actions)
  {
    hide CanRun, Fits, Start, CanOverflow;
    var reqs := TooLarge().reqs;
    assert TotalUpTo(reqs, 1) == TotalUpTo(reqs, 0) + reqs[0].numWorks;
    RingSufficesExactly(TooLarge());
    FitsExactly(TooLarge());
  }

  lemma StartHasReqs(j: Job)
    requires ValidJob(j)
    ensures Start(j).reqs == j.reqs
  {
  }

  lemma {:induction false} SmallJobFits(s: State, actions: seq<Action>)
    requires PoolInv(s) && CanRun(s, actions) && TotalUpTo(s.reqs, |s.reqs|) <= MAX_QUEUE_SIZE
    ensures Fits(s, actions)
    decreases |actions|
  {
    hide PoolInv, Apply, Enabled, TotalUpTo;
    QueueAtMostTotal(s);
    if actions == [] {
    } else {
      ApplyKeeps(s, actions[0]);
      SameReqs(s, actions[0]);
      SmallJobFits(Apply(s, actions[0]), actions[1..]);
    }
  }

  lemma SameReqs(s: State, a: Action)
    requires ValidState(s) && Enabled(s, a)
    ensures Apply(s, a).reqs == s.reqs
  {
    hide ValidState, IsSquare, Calculation, SetCell;
  }

  lemma {:induction false} FitsAtEnd(s: State, actions: seq<Action>)
    requires CanRun(s, actions) && Fits(s, actions)
    ensures |After(s, actions).pool.queue| <= MAX_QUEUE_SIZE
    decreases |actions|
  {
    hide Apply, Enabled, ValidState;
    if actions == [] {
    } else {
      FitsAtEnd(Apply(s, actions[0]), actions[1..]);
    }
  }

  lemma QueueAtMostTotal(t: State)
    requires PoolInv(t)
    ensures |t.pool.queue| <= TotalUpTo(t.reqs, |t.reqs|)
  {
    hide IsSquare, CellsAccounted, CutFits, Wakeups;
    PushedAtMostTotal(t);
  }
}
